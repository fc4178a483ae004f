/**
 The two packet arrays with a count: pending notifications in the device
 (src/model/uci_sim_device.c:103-129) and outbound packets in the engine
 (src/core/uci_sim_engine.c:5-15 and 160-173). Both append at the end and
 shift everything forward on removal.
 */
module PacketQueues {
  import opened Types
  import opened PacketCodec

  const MAX_PENDING := 8
  const MAX_OUTBOUND := 16

  const EMPTY_PACKET := Packet(0, 0, 0, 0, [])

  /** What draining pending notifications into the free outbound slots leaves in both queues. */
  datatype Flushed = Flushed(pending: seq<Packet>, outbound: seq<Packet>)

  /** Move the head as long as there is one; a head that finds no room is lost and ends the drain. */
  function Flush(pending: seq<Packet>, outbound: seq<Packet>): Flushed
    decreases |pending|
  {
    if pending == [] then Flushed(pending, outbound)
    else if |outbound| >= MAX_OUTBOUND then Flushed(pending[1..], outbound)
    else Flush(pending[1..], outbound + [pending[0]])
  }

  /**
   Draining is exact: with room for all, all move in order; otherwise the first that fit move, one is
   lost, the rest stay.
   */
  lemma {:induction false} FlushExact(pending: seq<Packet>, outbound: seq<Packet>)
    requires |outbound| <= MAX_OUTBOUND
    ensures var free := MAX_OUTBOUND - |outbound|;
            Flush(pending, outbound) ==
              if |pending| <= free then Flushed([], outbound + pending)
              else Flushed(pending[free + 1..], outbound + pending[..free])
    decreases |pending|
  {
    if pending == [] {
      assert outbound + pending == outbound;
    } else if |outbound| >= MAX_OUTBOUND {
      assert outbound + pending[..0] == outbound;
    } else {
      FlushExact(pending[1..], outbound + [pending[0]]);
      var free := MAX_OUTBOUND - |outbound|;
      assert outbound + [pending[0]] + pending[1..] == outbound + pending;
      if |pending| > free {
        assert pending[1..][free..] == pending[free + 1..];
        assert outbound + [pending[0]] + pending[1..][..free - 1] == outbound + pending[..free];
      }
    }
  }

  class PacketQueue {
    const slots: array<Packet>
    var count: nat

    ghost predicate Valid()
      reads this
    {
      count <= slots.Length
    }

    ghost function View(): seq<Packet>
      reads this, slots
      requires Valid()
    {
      slots[..count]
    }

    constructor (capacity: nat)
      ensures Valid() && fresh(slots) && slots.Length == capacity && View() == []
    {
      slots := new Packet[capacity](_ => EMPTY_PACKET);
      count := 0;
    }

    method Clear()
      requires Valid()
      modifies this, slots
      ensures Valid() && View() == []
    {
      forall i | 0 <= i < slots.Length { slots[i] := EMPTY_PACKET; }
      count := 0;
    }

    method Add(p: Packet) returns (ok: bool)
      requires Valid()
      modifies this, slots
      ensures Valid()
      ensures ok <==> |old(View())| < slots.Length
      ensures View() == if ok then old(View()) + [p] else old(View())
    {
      if count >= slots.Length { return false; }
      slots[count] := p;
      count := count + 1;
      return true;
    }

    method Take() returns (r: Option<Packet>)
      requires Valid()
      modifies this, slots
      ensures Valid()
      ensures if old(View()) == [] then r == None && View() == []
              else r == Some(old(View())[0]) && View() == old(View())[1..]
    {
      if count == 0 { return None; }
      r := Some(slots[0]);
      var i := 1;
      while i < count
        invariant 1 <= i <= count == old(count)
        invariant forall j :: 0 <= j < i - 1 ==> slots[j] == old(slots[j + 1])
        invariant forall j :: i - 1 <= j < slots.Length ==> slots[j] == old(slots[j])
      {
        slots[i - 1] := slots[i];
        i := i + 1;
      }
      count := count - 1;
    }
  }
}
