/** Logical links of a session: a dense prefix of a fixed array (src/model/uci_sim_device.c:801-872). */
module LogicalLinks {
  import opened Types

  const MAX_LINKS := 8
  const ANY_ID: byte := 0xFF

  datatype Link = Link(inUse: bool, id: byte, mode: byte, credit: byte)

  const EMPTY_LINK := Link(false, 0, 0, 0)

  ghost function Ids(links: seq<Link>): set<byte> {
    set l | l in links :: l.id
  }

  predicate Exists(links: seq<Link>, id: byte) {
    exists i :: 0 <= i < |links| && links[i].id == id
  }

  function IndexOf(links: seq<Link>, id: byte): (i: nat)
    ensures i <= |links|
    ensures i < |links| ==> links[i].id == id
    ensures forall j :: 0 <= j < i ==> links[j].id != id
  {
    if links == [] || links[0].id == id then 0 else 1 + IndexOf(links[1..], id)
  }

  /** The least id at or above a candidate that no link has. */
  function LeastUnused(links: seq<Link>, from: nat): (id: nat)
    requires from <= 0x100
    ensures from <= id <= 0x100
    ensures id < 0x100 ==> !Exists(links, id)
    ensures forall j: byte :: from <= j < id ==> Exists(links, j)
    decreases 0x100 - from
  {
    if from < 0x100 && Exists(links, from) then LeastUnused(links, from + 1) else from
  }

  /** The id a new link gets: the requested one, or the least unused one. */
  function AssignedId(links: seq<Link>, requested: byte): nat {
    if requested == ANY_ID then LeastUnused(links, 0) else requested
  }

  /** Every link in use, all ids different, and the wildcard id never used. */
  ghost predicate WellFormed(links: seq<Link>) {
    && |links| <= MAX_LINKS
    && (forall i :: 0 <= i < |links| ==> links[i].inUse && links[i].id != ANY_ID)
    && (forall i, j :: 0 <= i < j < |links| ==> links[i].id != links[j].id)
  }

  ghost function Below(n: nat): (s: set<byte>)
    requires n <= 0x100
    ensures |s| == n && forall j: byte :: j in s <==> j < n
  {
    if n == 0 then {} else Below(n - 1) + {n - 1}
  }

  /** Pigeonhole: n links cannot use all of the n + 1 smallest ids. */
  lemma LeastUnusedSmall(links: seq<Link>)
    requires |links| < 0x100
    ensures LeastUnused(links, 0) <= |links|
  {
    var low := Below(LeastUnused(links, 0));
    forall j | j in low ensures j in Ids(links) {
      assert Exists(links, j);
    }
    IdsBound(links);
    SubsetCardinality(low, Ids(links));
  }

  lemma {:induction false} IdsBound(links: seq<Link>)
    ensures |Ids(links)| <= |links|
  {
    if links != [] {
      IdsBound(links[1..]);
      assert links == [links[0]] + links[1..];
      assert Ids(links) == {links[0].id} + Ids(links[1..]);
    }
  }

  /**
   Adding a link under its assigned id, when there is room and the requested id is free, keeps the
   links well formed.
   */
  lemma AppendKeeps(links: seq<Link>, requested: byte, mode: byte, credit: byte)
    requires WellFormed(links) && |links| < MAX_LINKS
    requires requested != ANY_ID ==> !Exists(links, requested)
    ensures var id := AssignedId(links, requested);
            && id < 0xFF && !Exists(links, id) && (requested == ANY_ID ==> id <= |links| <= 7)
            && WellFormed(links + [Link(true, id, mode, credit)])
  {
    LeastUnusedSmall(links);
  }

  function Close(links: seq<Link>, id: byte): seq<Link> {
    var i := IndexOf(links, id);
    if i < |links| then links[..i] + links[i + 1..] else links
  }

  /** Where the links that stay after a close came from. */
  lemma CloseOrigin(links: seq<Link>, id: byte, k: nat)
    requires k < |Close(links, id)|
    ensures Close(links, id)[k] == links[if k < IndexOf(links, id) then k else k + 1]
  {
  }

  lemma CloseWellFormed(links: seq<Link>, id: byte)
    requires WellFormed(links)
    ensures WellFormed(Close(links, id))
  {
    forall k | 0 <= k < |Close(links, id)|
      ensures Close(links, id)[k] == links[if k < IndexOf(links, id) then k else k + 1]
    {
      CloseOrigin(links, id, k);
    }
  }

  /** Closing removes exactly the link with the id. */
  lemma CloseRemoves(links: seq<Link>, id: byte, other: byte)
    requires WellFormed(links)
    ensures |Close(links, id)| == |links| - (if Exists(links, id) then 1 else 0)
    ensures Exists(Close(links, id), other) <==> Exists(links, other) && other != id
  {
    var i, after := IndexOf(links, id), Close(links, id);
    if k :| 0 <= k < |links| && links[k].id == other && other != id {
      var j := if k < i then k else k - 1;
      if i < |links| { assert after[j] == links[k]; }
      assert after[j].id == other;
    }
    if k :| 0 <= k < |after| && after[k].id == other {
      CloseOrigin(links, id, k);
    }
  }

  /** Closing keeps the order of the other links. */
  lemma CloseKeepsOrder(links: seq<Link>, id: byte, a: nat, b: nat)
    requires WellFormed(links) && a < b < |Close(links, id)|
    ensures IndexOf(links, Close(links, id)[a].id) < IndexOf(links, Close(links, id)[b].id)
  {
    CloseOrigin(links, id, a);
    CloseOrigin(links, id, b);
    var i := IndexOf(links, id);
    IndexOfAt(links, if a < i then a else a + 1);
    IndexOfAt(links, if b < i then b else b + 1);
  }

  lemma IndexOfAt(links: seq<Link>, k: nat)
    requires WellFormed(links) && k < |links|
    ensures IndexOf(links, links[k].id) == k
  {
  }

  class LinkTable {
    const slots: array<Link>
    var count: nat

    /** The links in use are exactly the dense prefix; everything behind it is cleared. */
    ghost predicate Valid()
      reads this, slots
    {
      && slots.Length == MAX_LINKS && count <= MAX_LINKS
      && WellFormed(slots[..count])
      && forall i :: count <= i < MAX_LINKS ==> slots[i] == EMPTY_LINK
    }

    ghost function View(): seq<Link>
      reads this, slots
      requires Valid()
    {
      slots[..count]
    }

    constructor ()
      ensures Valid() && fresh(slots) && View() == []
    {
      slots := new Link[MAX_LINKS](_ => EMPTY_LINK);
      count := 0;
    }

    method Clear()
      requires slots.Length == MAX_LINKS
      modifies this, slots
      ensures Valid() && View() == []
    {
      forall i | 0 <= i < slots.Length { slots[i] := EMPTY_LINK; }
      count := 0;
    }

    method Find(id: byte) returns (i: nat)
      requires Valid()
      ensures i == IndexOf(View(), id) && (i < |View()| <==> Exists(View(), id))
    {
      i := 0;
      while i < count
        invariant 0 <= i <= count
        invariant forall j :: 0 <= j < i ==> slots[j].id != id
      {
        if slots[i].inUse && slots[i].id == id {
          assert View()[i].id == id;
          return;
        }
        i := i + 1;
      }
    }

    /** Searches upward from 0 for a wildcard request; the guard against running out of ids is never reached. */
    method Allocate(requested: byte, mode: byte, credit: byte) returns (r: Option<byte>)
      requires Valid()
      requires requested != ANY_ID ==> !Exists(View(), requested)
      modifies this, slots
      ensures Valid()
      ensures if |old(View())| >= MAX_LINKS then r == None && View() == old(View())
              else var id := AssignedId(old(View()), requested);
                   r == Some(id) && View() == old(View()) + [Link(true, id, mode, credit)]
    {
      if count >= MAX_LINKS { return None; }
      ghost var before := View();
      AppendKeeps(before, requested, mode, credit);
      var candidate := requested;
      if candidate == ANY_ID {
        candidate := 0;
        var at := Find(candidate);
        while at < count && candidate < ANY_ID
          invariant Valid() && View() == before && count < MAX_LINKS && 0 <= candidate <= ANY_ID
          invariant at == IndexOf(before, candidate) && (at < count <==> Exists(before, candidate))
          invariant LeastUnused(before, candidate) == LeastUnused(before, 0)
          decreases ANY_ID - candidate
        {
          candidate := candidate + 1;
          at := Find(candidate);
        }
      }
      assert candidate == AssignedId(before, requested);
      slots[count] := Link(true, candidate, mode, credit);
      count := count + 1;
      assert slots[..count] == before + [Link(true, candidate, mode, credit)];
      return Some(candidate);
    }

    /** Slides the links behind a position forward and clears the slot that becomes free. */
    method RemoveSlot(at: nat)
      requires slots.Length == MAX_LINKS && at < count <= MAX_LINKS
      requires forall i :: count <= i < MAX_LINKS ==> slots[i] == EMPTY_LINK
      modifies this, slots
      ensures count == old(count) - 1
      ensures slots[..count] == old(slots[..at]) + old(slots[at + 1..count])
      ensures forall i :: count <= i < MAX_LINKS ==> slots[i] == EMPTY_LINK
    {
      var i := at;
      while i + 1 < count
        invariant at <= i < count == old(count)
        invariant forall j :: 0 <= j < at ==> slots[j] == old(slots[j])
        invariant forall j :: at <= j < i ==> slots[j] == old(slots[j + 1])
        invariant forall j :: i < j < MAX_LINKS ==> slots[j] == old(slots[j])
      {
        slots[i] := slots[i + 1];
        i := i + 1;
      }
      count := count - 1;
      slots[count] := EMPTY_LINK;
    }

    method Remove(id: byte) returns (ok: bool)
      requires Valid()
      modifies this, slots
      ensures Valid() && View() == Close(old(View()), id)
      ensures ok <==> Exists(old(View()), id)
    {
      ghost var before := View();
      var i := Find(id);
      if i >= count { return false; }
      RemoveSlot(i);
      CloseWellFormed(before, id);
      assert slots[..count] == Close(before, id) by {
        assert before[..i] == old(slots[..i]) && before[i + 1..] == old(slots[i + 1..count]);
      }
      return true;
    }
  }
}
