/**
 Configuration tables. The simulator keeps each table in a fixed array of slots
 (src/model/uci_sim_device.c:370-426 and 641-709); here the array is shown to
 refine a finite map from parameter id to value with a bounded number of keys.
 */
module ConfigTables {
  import opened Types

  const MAX_CONFIG_VALUE := 64
  const MAX_SESSION_CONFIGS := 80
  const MAX_DEVICE_CONFIGS := 8

  type Table = map<byte, seq<byte>>

  /** Storing fails for a long value, and for a new id when the table is full; it then changes nothing. */
  function Store(m: Table, capacity: nat, id: byte, value: seq<byte>): Option<Table> {
    if |value| <= MAX_CONFIG_VALUE && (id in m || |m| < capacity) then Some(m[id := value]) else None
  }

  function Get(m: Table, id: byte): Option<seq<byte>> {
    if id in m then Some(m[id]) else None
  }

  function StoreOrKeep(m: Table, capacity: nat, t: Tlv): Table {
    var s := Store(m, capacity, t.id, t.value);
    if s.Some? then s.value else m
  }

  /** A run of stores whose failures are ignored, as at session allocation. */
  function StoreAll(m: Table, capacity: nat, tlvs: seq<Tlv>): Table
    decreases |tlvs|
  {
    if tlvs == [] then m else StoreAll(StoreOrKeep(m, capacity, tlvs[0]), capacity, tlvs[1..])
  }

  ghost predicate Distinct(tlvs: seq<Tlv>) {
    forall i, j :: 0 <= i < j < |tlvs| ==> tlvs[i].id != tlvs[j].id
  }

  ghost function IdsOf(tlvs: seq<Tlv>): set<byte> {
    set t | t in tlvs :: t.id
  }

  lemma IdsOfCons(tlvs: seq<Tlv>)
    requires tlvs != []
    ensures IdsOf(tlvs) == {tlvs[0].id} + IdsOf(tlvs[1..])
  {
    assert tlvs == [tlvs[0]] + tlvs[1..];
  }

  lemma DistinctCons(tlvs: seq<Tlv>)
    requires tlvs != [] && Distinct(tlvs)
    ensures Distinct(tlvs[1..]) && tlvs[0].id !in IdsOf(tlvs[1..])
  {
    var rest := tlvs[1..];
    forall i, j | 0 <= i < j < |rest| ensures rest[i].id != rest[j].id {
      assert tlvs[i + 1].id != tlvs[j + 1].id;
    }
    forall k | 0 <= k < |rest| ensures rest[k].id != tlvs[0].id {
      assert rest[k] == tlvs[k + 1];
    }
  }

  /** A run of stores leaves the ids it does not mention alone. */
  lemma {:induction false} StoreAllKeeps(m: Table, capacity: nat, tlvs: seq<Tlv>, id: byte)
    requires id in m && id !in IdsOf(tlvs)
    ensures id in StoreAll(m, capacity, tlvs) && StoreAll(m, capacity, tlvs)[id] == m[id]
    decreases |tlvs|
  {
    if tlvs != [] {
      IdsOfCons(tlvs);
      StoreAllKeeps(StoreOrKeep(m, capacity, tlvs[0]), capacity, tlvs[1..], id);
    }
  }

  /** Distinct short parameters that fit beside what is stored are all stored. */
  lemma {:induction false} StoreAllFits(m: Table, capacity: nat, tlvs: seq<Tlv>, i: nat)
    requires Distinct(tlvs) && i < |tlvs|
    requires forall j :: 0 <= j < |tlvs| ==> |tlvs[j].value| <= MAX_CONFIG_VALUE
    requires |m| + |tlvs| <= capacity
    ensures tlvs[i].id in StoreAll(m, capacity, tlvs) && StoreAll(m, capacity, tlvs)[tlvs[i].id] == tlvs[i].value
    decreases |tlvs|
  {
    var t0, rest := tlvs[0], tlvs[1..];
    var m1 := StoreOrKeep(m, capacity, t0);
    assert m1 == m[t0.id := t0.value];
    assert m1.Keys == m.Keys + {t0.id} && |m1.Keys| <= |m.Keys| + 1;
    DistinctCons(tlvs);
    if i == 0 {
      StoreAllKeeps(m1, capacity, rest, t0.id);
    } else {
      StoreAllFits(m1, capacity, rest, i - 1);
    }
  }

  /** A run of stores keeps every key and adds only ids it was given. */
  lemma {:induction false} StoreAllKeys(m: Table, capacity: nat, tlvs: seq<Tlv>, after: Table)
    requires after == StoreAll(m, capacity, tlvs)
    ensures m.Keys <= after.Keys <= m.Keys + IdsOf(tlvs)
    decreases |tlvs|
  {
    if tlvs != [] {
      IdsOfCons(tlvs);
      var m1 := StoreOrKeep(m, capacity, tlvs[0]);
      assert m.Keys <= m1.Keys <= m.Keys + {tlvs[0].id};
      StoreAllKeys(m1, capacity, tlvs[1..], after);
    }
  }

  /**
   A table that only ever holds supported ids cannot overflow when it has a slot
   for each of them: a store then fails exactly when the value is too long.
   */
  lemma SupportedStoreFailsOnlyWhenLong(m: Table, supported: set<byte>, capacity: nat, id: byte, value: seq<byte>)
    requires m.Keys <= supported && |supported| <= capacity && id in supported
    ensures Store(m, capacity, id, value).None? <==> |value| > MAX_CONFIG_VALUE
  {
    if id !in m {
      SubsetCardinality(m.Keys, supported - {id});
    }
  }

  // ----- the array of slots -----

  datatype Slot = Slot(inUse: bool, id: byte, value: seq<byte>)

  const EMPTY_SLOT := Slot(false, 0, [])

  predicate Holds(slot: Slot, id: byte) {
    slot.inUse && slot.id == id
  }

  ghost predicate DistinctIds(slots: seq<Slot>) {
    forall i, j :: 0 <= i < j < |slots| && slots[i].inUse && slots[j].inUse ==> slots[i].id != slots[j].id
  }

  /** The map a sequence of slots stands for; an earlier slot hides a later one with the same id. */
  function Contents(slots: seq<Slot>): Table {
    if slots == [] then map[]
    else
      var m := Contents(slots[1..]);
      if slots[0].inUse then m[slots[0].id := slots[0].value] else m
  }

  lemma {:induction false} ContentsKeys(slots: seq<Slot>, id: byte)
    ensures id in Contents(slots) <==> exists i :: 0 <= i < |slots| && Holds(slots[i], id)
  {
    if slots != [] {
      ContentsKeys(slots[1..], id);
      if i :| 0 <= i < |slots[1..]| && Holds(slots[1..][i], id) {
        assert Holds(slots[i + 1], id);
      }
      if i :| 0 <= i < |slots| && Holds(slots[i], id) {
        if i > 0 { assert Holds(slots[1..][i - 1], id); }
      }
    }
  }

  lemma {:induction false} ContentsAt(slots: seq<Slot>, i: nat)
    requires DistinctIds(slots) && i < |slots| && slots[i].inUse
    ensures slots[i].id in Contents(slots) && Contents(slots)[slots[i].id] == slots[i].value
  {
    TailDistinct(slots);
    if i > 0 { ContentsAt(slots[1..], i - 1); }
  }

  lemma TailDistinct(slots: seq<Slot>)
    requires DistinctIds(slots) && slots != []
    ensures DistinctIds(slots[1..])
  {
    forall i, j | 0 <= i < j < |slots| - 1 && slots[1..][i].inUse && slots[1..][j].inUse
      ensures slots[1..][i].id != slots[1..][j].id
    {
      assert slots[i + 1].id != slots[j + 1].id;
    }
  }

  /** With distinct ids the map has one key per slot in use, so a free slot exists exactly below capacity. */
  lemma {:induction false} ContentsSize(slots: seq<Slot>)
    requires DistinctIds(slots)
    ensures |Contents(slots)| <= |slots|
    ensures |Contents(slots)| == |slots| <==> forall i :: 0 <= i < |slots| ==> slots[i].inUse
  {
    if slots != [] {
      var rest := slots[1..];
      TailDistinct(slots);
      ContentsSize(rest);
      if slots[0].inUse {
        ContentsKeys(rest, slots[0].id);
        forall i | 0 <= i < |rest| ensures !Holds(rest[i], slots[0].id) {
          assert rest[i] == slots[i + 1];
        }
      }
      assert (forall i :: 0 <= i < |slots| ==> slots[i].inUse)
        <==> slots[0].inUse && (forall i :: 0 <= i < |rest| ==> rest[i].inUse) by {
        assert forall i :: 0 <= i < |rest| ==> rest[i] == slots[i + 1];
        assert forall i :: 0 < i < |slots| ==> slots[i] == rest[i - 1];
      }
    }
  }

  /** Writing a value into the slot of its id, or into a free slot when the id is new, updates the map. */
  lemma WriteSlot(slots: seq<Slot>, i: nat, id: byte, value: seq<byte>)
    requires DistinctIds(slots) && i < |slots|
    requires Holds(slots[i], id) || (!slots[i].inUse && forall j :: 0 <= j < |slots| ==> !Holds(slots[j], id))
    ensures DistinctIds(slots[i := Slot(true, id, value)])
    ensures Contents(slots[i := Slot(true, id, value)]) == Contents(slots)[id := value]
  {
    var after := slots[i := Slot(true, id, value)];
    forall j, k | 0 <= j < k < |after| && after[j].inUse && after[k].inUse ensures after[j].id != after[k].id {
      assert !Holds(slots[j], id) || j == i;
      assert !Holds(slots[k], id) || k == i;
    }
    var want := Contents(slots)[id := value];
    forall x: byte ensures x in Contents(after) <==> x in want {
      ContentsKeys(after, x);
      ContentsKeys(slots, x);
      assert Holds(after[i], id);
      if j :| 0 <= j < |slots| && Holds(slots[j], x) { assert j == i || Holds(after[j], x); }
      if j :| 0 <= j < |after| && Holds(after[j], x) { assert j == i || Holds(slots[j], x); }
    }
    forall x | x in want ensures Contents(after)[x] == want[x] {
      ContentsKeys(after, x);
      var j :| 0 <= j < |after| && Holds(after[j], x);
      ContentsAt(after, j);
      if j != i { ContentsAt(slots, j); }
    }
    assert Contents(after) == want;
  }

  class ConfigTable {
    const slots: array<Slot>

    ghost predicate Valid()
      reads slots
    {
      DistinctIds(slots[..])
    }

    function View(): Table
      reads slots
    {
      Contents(slots[..])
    }

    constructor (capacity: nat)
      ensures Valid() && fresh(slots) && slots.Length == capacity
      ensures View() == map[]
    {
      slots := new Slot[capacity](_ => EMPTY_SLOT);
      new;
      var all := slots[..];
      forall id: byte ensures id !in Contents(all) {
        ContentsKeys(all, id);
      }
      assert Contents(all) == map[];
    }

    method Clear()
      modifies slots
      ensures Valid() && View() == map[]
    {
      forall i | 0 <= i < slots.Length { slots[i] := EMPTY_SLOT; }
      var all := slots[..];
      forall id: byte ensures id !in Contents(all) {
        ContentsKeys(all, id);
      }
      assert Contents(all) == map[];
    }

    /** First pass: overwrite the slot of the id. Second pass: take the first free slot. */
    method Put(id: byte, value: seq<byte>) returns (ok: bool)
      requires Valid()
      modifies slots
      ensures Valid()
      ensures ok == Store(old(View()), slots.Length, id, value).Some?
      ensures ok ==> View() == old(View())[id := value]
      ensures !ok ==> slots[..] == old(slots[..])
    {
      if |value| > MAX_CONFIG_VALUE { return false; }
      ghost var before := slots[..];
      var i := 0;
      while i < slots.Length
        invariant 0 <= i <= slots.Length
        invariant forall j :: 0 <= j < i ==> !Holds(slots[j], id)
        invariant slots[..] == before
      {
        if slots[i].inUse && slots[i].id == id {
          ContentsKeys(before, id);
          assert Holds(before[i], id);
          WriteSlot(before, i, id, value);
          slots[i] := slots[i].(value := value);
          assert slots[..] == before[i := Slot(true, id, value)];
          return true;
        }
        i := i + 1;
      }
      ContentsKeys(before, id);
      ContentsSize(before);
      i := 0;
      while i < slots.Length
        invariant 0 <= i <= slots.Length
        invariant forall j :: 0 <= j < i ==> slots[j].inUse
        invariant slots[..] == before
      {
        if !slots[i].inUse {
          assert forall j :: 0 <= j < |before| ==> before[j] == slots[j];
          WriteSlot(before, i, id, value);
          assert !before[i].inUse;
          slots[i] := Slot(true, id, value);
          assert slots[..] == before[i := Slot(true, id, value)];
          return true;
        }
        i := i + 1;
      }
      assert forall j :: 0 <= j < |before| ==> before[j].inUse;
      return false;
    }

    method Find(id: byte) returns (r: Option<seq<byte>>)
      requires Valid()
      ensures r == Get(View(), id)
    {
      var i := 0;
      while i < slots.Length
        invariant 0 <= i <= slots.Length
        invariant forall j :: 0 <= j < i ==> !Holds(slots[j], id)
      {
        if slots[i].inUse && slots[i].id == id {
          ContentsAt(slots[..], i);
          return Some(slots[i].value);
        }
        i := i + 1;
      }
      ContentsKeys(slots[..], id);
      return None;
    }
  }
}
