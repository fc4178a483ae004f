/**
 Outbound fragmentation in the TCP transport
 (src/transport/tcp/uci_sim_tcp_server.c:92-137). The socket is the sequence of
 bytes sent; a host parses them back and joins fragments at the packet boundary flag.
 */
module TcpServers {
  import opened Types
  import opened PacketCodec
  import opened Chardevs

  const MAX_FRAGMENT := 255

  /** A control payload cut into pieces of at most 255 bytes, all but the last marked incomplete. */
  function Pieces(p: Packet, payload: seq<byte>): seq<Packet>
    decreases |payload|
  {
    if |payload| <= MAX_FRAGMENT then [p.(pbf := PBF_COMPLETE, payload := payload)]
    else [p.(pbf := PBF_NOT_COMPLETE, payload := payload[..MAX_FRAGMENT])] + Pieces(p, payload[MAX_FRAGMENT..])
  }

  /** What is serialized for a packet: itself, or its pieces when it is a control packet too long for one. */
  function Fragments(p: Packet): seq<Packet> {
    if p.mt != MT_DATA && |p.payload| > MAX_FRAGMENT then Pieces(p, p.payload) else [p]
  }

  /** Joins payloads up to the first complete packet, under that packet's header. */
  function Join(ps: seq<Packet>, so_far: seq<byte>): Option<Packet>
    decreases |ps|
  {
    if ps == [] then None
    else if ps[0].pbf == PBF_COMPLETE then Some(ps[0].(payload := so_far + ps[0].payload))
    else Join(ps[1..], so_far + ps[0].payload)
  }

  lemma {:induction false} PiecesShape(p: Packet, payload: seq<byte>)
    requires p.mt != MT_DATA
    ensures var ps := Pieces(p, payload);
            && AllSerializable(ps)
            && |ps| == (if payload == [] then 1 else (|payload| + 254) / 255)
            && forall i :: 0 <= i < |ps| ==>
                 && |ps[i].payload| <= MAX_FRAGMENT && (ps[i].pbf == PBF_COMPLETE <==> i == |ps| - 1)
                 && ps[i] == p.(pbf := ps[i].pbf, payload := ps[i].payload)
    decreases |payload|
  {
    if |payload| > MAX_FRAGMENT { PiecesShape(p, payload[MAX_FRAGMENT..]); }
  }

  /** Shape of what is sent: pieces of at most 255 bytes, only the last complete, ceil(n / 255) of them. */
  lemma FragmentsShape(p: Packet)
    requires p.mt != MT_DATA && |p.payload| > MAX_FRAGMENT
    ensures var ps := Fragments(p);
            && |ps| == (|p.payload| + 254) / 255
            && forall i :: 0 <= i < |ps| ==> |ps[i].payload| <= 255 && (ps[i].pbf == PBF_COMPLETE <==> i == |ps| - 1)
  {
    PiecesShape(p, p.payload);
  }

  lemma {:induction false} JoinPieces(p: Packet, payload: seq<byte>, so_far: seq<byte>)
    ensures Join(Pieces(p, payload), so_far) == Some(p.(pbf := PBF_COMPLETE, payload := so_far + payload))
    decreases |payload|
  {
    if |payload| > MAX_FRAGMENT {
      JoinPieces(p, payload[MAX_FRAGMENT..], so_far + payload[..MAX_FRAGMENT]);
      assert so_far + payload[..MAX_FRAGMENT] + payload[MAX_FRAGMENT..] == so_far + payload;
      assert Pieces(p, payload)[1..] == Pieces(p, payload[MAX_FRAGMENT..]);
    }
  }

  lemma FragmentsInRange(p: Packet)
    requires p.mt < 4 && p.pbf < 2 && p.gid < 16 && p.oid < 64 && p.mt != MT_DATA
    ensures AllSerializable(Fragments(p))
    ensures forall i :: 0 <= i < |Fragments(p)| ==> InRange(Fragments(p)[i]) && Fragments(p)[i].mt != MT_DATA
  {
    if |p.payload| > MAX_FRAGMENT {
      PiecesShape(p, p.payload);
      PiecesFlag(p, p.payload);
    }
  }

  lemma {:induction false} PiecesFlag(p: Packet, payload: seq<byte>)
    ensures forall i :: 0 <= i < |Pieces(p, payload)| ==> Pieces(p, payload)[i].pbf < 2
    decreases |payload|
  {
    if |payload| > MAX_FRAGMENT { PiecesFlag(p, payload[MAX_FRAGMENT..]); }
  }

  /**
   For every control packet, parsing what was sent and joining it gives the
   packet back exactly when it was itself marked complete.
   */
  lemma FragmentationRoundTrip(p: Packet)
    requires p.mt < 4 && p.pbf < 2 && p.gid < 16 && p.oid < 64 && p.mt != MT_DATA
    ensures AllSerializable(Fragments(p))
    ensures var s := Scan(WireOf(Fragments(p))); !s.bad && s.rest == [] && s.packets == Fragments(p)
    ensures Join(Scan(WireOf(Fragments(p))).packets, []) == Some(p) <==> p.pbf == PBF_COMPLETE
  {
    FragmentsInRange(p);
    ScanWire(Fragments(p), []);
    ScanWaits([]);
    assert WireOf(Fragments(p)) + [] == WireOf(Fragments(p)) && Fragments(p) + [] == Fragments(p);
    if |p.payload| > MAX_FRAGMENT {
      JoinPieces(p, p.payload, []);
      assert [] + p.payload == p.payload;
    } else {
      assert [] + p.payload == p.payload;
      assert [p][1..] == [];
    }
  }

  class TcpClient {
    var sent: seq<byte>  // everything written to the socket

    constructor ()
      ensures sent == []
    {
      sent := [];
    }

    method Write(p: Packet) returns (ok: bool)
      modifies this
      ensures ok <==> Serializable(p)
      ensures sent == if ok then old(sent) + Encode(p) else old(sent)
    {
      var wire := new byte[MAX_PACKET];
      var written: nat;
      ok, written := Serialize(p, wire);
      if ok { sent := sent + wire[..written]; }
    }

    method SendToClient(p: Packet) returns (ok: bool)
      modifies this
      ensures ok <==> AllSerializable(Fragments(p))
      ensures sent == if ok then old(sent) + WireOf(Fragments(p)) else old(sent)
    {
      if p.mt != MT_DATA && |p.payload| > MAX_FRAGMENT {
        hide Pieces, WireOf, Encode, AllSerializable, RestOfWire;
        var offset := 0;
        WholeWire(p);
        ghost var goal := old(sent) + WireOf(Pieces(p, p.payload));
        while offset < |p.payload|
          invariant 0 <= offset <= |p.payload|
          invariant offset < |p.payload| ==> AllSerializable(Pieces(p, p.payload[offset..]))
          invariant goal == sent + RestOfWire(p, offset)
        {
          var remaining := |p.payload| - offset;
          var length := if remaining > MAX_FRAGMENT then MAX_FRAGMENT else remaining;
          var piece := p.(pbf := if remaining > MAX_FRAGMENT then PBF_NOT_COMPLETE else PBF_COMPLETE,
                          payload := p.payload[offset..offset + length]);
          NextPiece(p, offset, length, piece);
          ghost var before := sent;
          var written := Write(piece);
          offset := offset + length;
          Regroup(before, Encode(piece), RestOfWire(p, offset));
        }
        NoWireLeft(p);
        assert sent + [] == sent;
        ok := true;
      } else {
        ok := Write(p);
        SingleWire(p);
      }
    }
  }

  lemma Regroup(a: seq<byte>, b: seq<byte>, c: seq<byte>)
    ensures a + (b + c) == a + b + c
  {
  }

  lemma WholeWire(p: Packet)
    requires p.mt != MT_DATA && p.payload != []
    ensures AllSerializable(Pieces(p, p.payload)) && p.payload[0..] == p.payload
    ensures RestOfWire(p, 0) == WireOf(Pieces(p, p.payload))
  {
    PiecesShape(p, p.payload);
    assert p.payload[0..] == p.payload;
  }

  lemma NoWireLeft(p: Packet)
    ensures RestOfWire(p, |p.payload|) == []
  {
  }

  lemma SingleWire(p: Packet)
    ensures AllSerializable([p]) <==> Serializable(p)
    ensures Serializable(p) ==> WireOf([p]) == Encode(p)
  {
    assert [p][0] == p && [p][1..] == [];
    if Serializable(p) { assert Encode(p) + [] == Encode(p); }
  }

  /** The wire still to come once the pieces up to an offset are written. */
  ghost function RestOfWire(p: Packet, offset: nat): seq<byte>
    requires offset <= |p.payload| && (offset < |p.payload| ==> AllSerializable(Pieces(p, p.payload[offset..])))
  {
    if offset < |p.payload| then WireOf(Pieces(p, p.payload[offset..])) else []
  }

  /** The wire to come starts with the next piece and goes on with the rest. */
  lemma NextPiece(p: Packet, offset: nat, n: nat, piece: Packet)
    requires p.mt != MT_DATA && offset < |p.payload|
    requires AllSerializable(Pieces(p, p.payload[offset..]))
    requires n == Min(|p.payload| - offset, MAX_FRAGMENT)
    requires piece == p.(pbf := if |p.payload| - offset > MAX_FRAGMENT then PBF_NOT_COMPLETE else PBF_COMPLETE,
                         payload := p.payload[offset..offset + n])
    ensures Serializable(piece)
    ensures offset + n < |p.payload| ==> AllSerializable(Pieces(p, p.payload[offset + n..]))
    ensures RestOfWire(p, offset) == Encode(piece) + RestOfWire(p, offset + n)
  {
    hide Encode;
    var left := p.payload[offset..];
    assert left[..n] == p.payload[offset..offset + n];
    var ps := Pieces(p, left);
    assert ps[0] == piece;
    if |left| > MAX_FRAGMENT {
      assert left[n..] == p.payload[offset + n..];
      PiecesShape(p, left[n..]);
      assert ps[1..] == Pieces(p, left[n..]);
    } else {
      assert ps[1..] == [] && WireOf(ps[1..]) == [];
      assert WireOf(ps) == Encode(ps[0]) + WireOf(ps[1..]);
    }
  }
}
