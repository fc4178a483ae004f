/** The scheduled-event array (src/model/uci_sim_device.c:131-232), compacted in place. */
module EventQueues {
  import opened Types

  const MAX_EVENTS := 8

  datatype EventKind = NoEvent | RangeData | DataTransfer

  datatype Event = Event(kind: EventKind, session: uint32, delay: uint32)

  const EMPTY_EVENT := Event(NoEvent, 0, 0)

  // ----- what the operations do to the queue as a sequence -----

  function Schedule(q: seq<Event>, e: Event): Option<seq<Event>> {
    if e.kind.NoEvent? || |q| >= MAX_EVENTS then None else Some(q + [e])
  }

  /** Whether an event is for a session, of one kind or of any kind. */
  predicate Targets(e: Event, kind: Option<EventKind>, session: uint32) {
    e.session == session && (kind.None? || e.kind == kind.value)
  }

  /** The queue without the targeted events, the others in order. */
  function Without(q: seq<Event>, kind: Option<EventKind>, session: uint32): seq<Event> {
    if q == [] then []
    else
      var kept, last := Without(q[..|q| - 1], kind, session), q[|q| - 1];
      if Targets(last, kind, session) then kept else kept + [last]
  }

  function Cancel(q: seq<Event>, session: uint32): seq<Event> {
    Without(q, None, session)
  }

  function Reschedule(q: seq<Event>, e: Event): Option<seq<Event>> {
    if e.kind.NoEvent? then None else Schedule(Without(q, Some(e.kind), e.session), e)
  }

  function Aged(e: Event, elapsed: uint32): Event {
    e.(delay := if e.delay > elapsed then e.delay - elapsed else 0)
  }

  function Age(q: seq<Event>, elapsed: uint32): (r: seq<Event>)
    ensures |r| == |q|
    ensures forall i :: 0 <= i < |q| ==> r[i] == Aged(q[i], elapsed)
  {
    seq(|q|, i requires 0 <= i < |q| => Aged(q[i], elapsed))
  }

  /** Index of the first event whose delay has run out, or the length of the queue. */
  function FirstReady(q: seq<Event>): (i: nat)
    ensures i <= |q|
    ensures i < |q| ==> q[i].delay == 0
    ensures forall j :: 0 <= j < i ==> q[j].delay != 0
  {
    if q == [] then 0
    else if q[0].delay == 0 then 0
    else 1 + FirstReady(q[1..])
  }

  function RemoveAt<T>(q: seq<T>, i: nat): seq<T>
    requires i < |q|
  {
    q[..i] + q[i + 1..]
  }

  // ----- laws -----

  /** Removal keeps exactly the events that are not targeted, and never lengthens the queue. */
  lemma {:induction false} WithoutMembers(q: seq<Event>, kind: Option<EventKind>, session: uint32)
    ensures |Without(q, kind, session)| <= |q|
    ensures forall e :: e in Without(q, kind, session) <==> e in q && !Targets(e, kind, session)
    ensures multiset(Without(q, kind, session)) <= multiset(q)
  {
    if q != [] {
      WithoutMembers(q[..|q| - 1], kind, session);
      assert q == q[..|q| - 1] + [q[|q| - 1]];
    }
  }

  /** The queue position of an untargeted event after removal; removal keeps the order of what it keeps. */
  ghost function Shifted(q: seq<Event>, kind: Option<EventKind>, session: uint32, i: nat): (k: nat)
    requires i < |q| && !Targets(q[i], kind, session)
    ensures k <= i && k < |Without(q, kind, session)| && Without(q, kind, session)[k] == q[i]
    decreases |q|
  {
    var kept := Without(q[..|q| - 1], kind, session);
    if i == |q| - 1 then (WithoutMembers(q[..|q| - 1], kind, session); |kept|)
    else Shifted(q[..|q| - 1], kind, session, i)
  }

  /** Every kept event came from a position at least as far back, in the same order. */
  lemma {:induction false} WithoutOrdered(q: seq<Event>, kind: Option<EventKind>, session: uint32, a: nat, b: nat)
      returns (i: nat, j: nat)
    requires a < b < |Without(q, kind, session)|
    ensures i < j < |q| && a <= i && b <= j
    ensures Without(q, kind, session)[a] == q[i] && Without(q, kind, session)[b] == q[j]
    decreases |q|
  {
    var kept := Without(q[..|q| - 1], kind, session);
    WithoutMembers(q[..|q| - 1], kind, session);
    if b < |kept| {
      i, j := WithoutOrdered(q[..|q| - 1], kind, session, a, b);
    } else {
      j := |q| - 1;
      i := WithoutOrigin(q[..|q| - 1], kind, session, a);
    }
  }

  lemma {:induction false} WithoutOrigin(q: seq<Event>, kind: Option<EventKind>, session: uint32, a: nat)
      returns (i: nat)
    requires a < |Without(q, kind, session)|
    ensures a <= i < |q| && Without(q, kind, session)[a] == q[i]
    decreases |q|
  {
    var kept := Without(q[..|q| - 1], kind, session);
    WithoutMembers(q[..|q| - 1], kind, session);
    if a < |kept| {
      i := WithoutOrigin(q[..|q| - 1], kind, session, a);
    } else {
      i := |q| - 1;
    }
  }

  /** Rescheduling fails only when the queue is full and holds nothing to replace. */
  lemma RescheduleFails(q: seq<Event>, e: Event)
    requires |q| <= MAX_EVENTS && !e.kind.NoEvent?
    ensures Reschedule(q, e).None? <==> |q| == MAX_EVENTS && forall x :: x in q ==> !Targets(x, Some(e.kind), e.session)
  {
    WithoutMembers(q, Some(e.kind), e.session);
    WithoutLength(q, Some(e.kind), e.session);
  }

  lemma {:induction false} WithoutLength(q: seq<Event>, kind: Option<EventKind>, session: uint32)
    ensures |Without(q, kind, session)| == |q| <==> forall x :: x in q ==> !Targets(x, kind, session)
  {
    if q != [] {
      WithoutLength(q[..|q| - 1], kind, session);
      WithoutMembers(q[..|q| - 1], kind, session);
      assert q == q[..|q| - 1] + [q[|q| - 1]];
    }
  }

  // ----- the array -----

  class EventQueue {
    const slots: array<Event>
    var count: nat

    ghost predicate Valid()
      reads this
    {
      slots.Length == MAX_EVENTS && count <= MAX_EVENTS
    }

    ghost function View(): seq<Event>
      reads this, slots
      requires Valid()
    {
      slots[..count]
    }

    constructor ()
      ensures Valid() && fresh(slots) && View() == []
    {
      slots := new Event[MAX_EVENTS](_ => EMPTY_EVENT);
      count := 0;
    }

    method Clear()
      requires Valid()
      modifies this, slots
      ensures Valid() && View() == []
    {
      forall i | 0 <= i < slots.Length { slots[i] := EMPTY_EVENT; }
      count := 0;
    }

    method Add(e: Event) returns (ok: bool)
      requires Valid()
      modifies this, slots
      ensures Valid()
      ensures ok == Schedule(old(View()), e).Some?
      ensures View() == if ok then old(View()) + [e] else old(View())
    {
      if e.kind.NoEvent? { return false; }
      if count >= MAX_EVENTS { return false; }
      slots[count] := e;
      count := count + 1;
      return true;
    }

    /** One pass that slides the kept events towards the front. */
    method Remove(kind: Option<EventKind>, session: uint32)
      requires Valid()
      modifies this, slots
      ensures Valid() && View() == Without(old(View()), kind, session)
    {
      ghost var before := slots[..count];
      var i, out := 0, 0;
      while i < count
        invariant 0 <= out <= i <= count == |before| && Valid()
        invariant slots[..out] == Without(before[..i], kind, session)
        invariant forall j :: i <= j < count ==> slots[j] == before[j]
      {
        assert before[..i + 1][..i] == before[..i];
        if !Targets(slots[i], kind, session) {
          ghost var kept := slots[..out];
          slots[out] := slots[i];
          assert slots[..out + 1] == kept + [before[i]];
          out := out + 1;
        }
        i := i + 1;
      }
      count := out;
      assert before[..|before|] == before;
    }

    method Replace(e: Event) returns (ok: bool)
      requires Valid()
      modifies this, slots
      ensures Valid()
      ensures ok == Reschedule(old(View()), e).Some?
      ensures View() == if ok then Reschedule(old(View()), e).value
                        else if e.kind.NoEvent? then old(View())
                        else Without(old(View()), Some(e.kind), e.session)
    {
      if e.kind.NoEvent? { return false; }
      Remove(Some(e.kind), e.session);
      ok := Add(e);
    }

    method Tick(elapsed: uint32)
      requires Valid()
      modifies slots
      ensures Valid() && View() == Age(old(View()), elapsed)
    {
      var i := 0;
      while i < count
        invariant 0 <= i <= count
        invariant forall j :: 0 <= j < i ==> slots[j] == Aged(old(slots[j]), elapsed)
        invariant forall j :: i <= j < slots.Length ==> slots[j] == old(slots[j])
      {
        if slots[i].delay > elapsed {
          slots[i] := slots[i].(delay := slots[i].delay - elapsed);
        } else {
          slots[i] := slots[i].(delay := 0);
        }
        i := i + 1;
      }
    }

    /** Slides everything behind a position forward. */
    method RemoveSlot(at: nat)
      requires Valid() && at < count
      modifies this, slots
      ensures Valid() && View() == RemoveAt(old(View()), at)
    {
      var i := at;
      while i + 1 < count
        invariant at <= i < count == old(count)
        invariant forall j :: 0 <= j < at ==> slots[j] == old(slots[j])
        invariant forall j :: at <= j < i ==> slots[j] == old(slots[j + 1])
        invariant forall j :: i < j < slots.Length ==> slots[j] == old(slots[j])
      {
        slots[i] := slots[i + 1];
        i := i + 1;
      }
      count := count - 1;
    }

    method TakeReady() returns (r: Option<Event>)
      requires Valid()
      modifies this, slots
      ensures Valid()
      ensures var i := FirstReady(old(View()));
              if i < |old(View())| then r == Some(old(View())[i]) && View() == RemoveAt(old(View()), i)
              else r == None && View() == old(View())
    {
      ghost var before := View();
      var i := 0;
      while i < count
        invariant 0 <= i <= count
        invariant forall j :: 0 <= j < i ==> slots[j].delay != 0
      {
        if slots[i].delay == 0 {
          FirstReadyIs(before, i);
          r := Some(slots[i]);
          RemoveSlot(i);
          return;
        }
        i := i + 1;
      }
      FirstReadyIs(before, |before|);
      return None;
    }
  }

  lemma {:induction false} FirstReadyIs(q: seq<Event>, i: nat)
    requires i <= |q| && (i < |q| ==> q[i].delay == 0)
    requires forall j :: 0 <= j < i ==> q[j].delay != 0
    ensures FirstReady(q) == i
  {
    var first := FirstReady(q);
    assert first < |q| ==> q[first].delay == 0;
  }
}
