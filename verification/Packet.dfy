/** The UCI packet and its wire codec (src/core/uci_sim_packet.c). */
module PacketCodec {
  import opened Types

  const HEADER_SIZE := 4
  const MAX_PAYLOAD := 1024
  const MAX_PACKET := HEADER_SIZE + MAX_PAYLOAD

  const MT_DATA: byte := 0
  const MT_COMMAND: byte := 1
  const MT_RESPONSE: byte := 2
  const MT_NOTIFICATION: byte := 3

  const PBF_COMPLETE: byte := 0
  const PBF_NOT_COMPLETE: byte := 1

  datatype Packet = Packet(mt: byte, pbf: byte, gid: byte, oid: byte, payload: seq<byte>)

  /** The packets whose every field survives the wire: header fields fit their bits, the payload its length field. */
  predicate InRange(p: Packet) {
    && p.mt < 4 && p.pbf < 2 && p.gid < 16 && p.oid < 64
    && |p.payload| <= (if p.mt == MT_DATA then MAX_PAYLOAD else 255)
  }

  function PayloadLength(mt: byte, third: byte, fourth: byte): uint16 {
    if mt == MT_DATA then third + 0x100 * fourth else fourth
  }

  /** Message type and declared payload length of a buffer that holds at least a header. */
  function DeclaredLength(buffer: seq<byte>): uint16
    requires |buffer| >= HEADER_SIZE
  {
    PayloadLength(buffer[0] / 32 % 4, buffer[2], buffer[3])
  }

  function Parse(buffer: seq<byte>): Option<Packet> {
    if |buffer| < HEADER_SIZE then None
    else
      var n := DeclaredLength(buffer);
      if n > MAX_PAYLOAD || |buffer| < HEADER_SIZE + n then None
      else Some(Packet(buffer[0] / 32 % 4, buffer[0] / 16 % 2, buffer[0] % 16, buffer[1] % 64,
                       buffer[HEADER_SIZE..HEADER_SIZE + n]))
  }

  predicate Serializable(p: Packet) {
    |p.payload| <= (if p.mt == MT_DATA then MAX_PAYLOAD else 255)
  }

  function Header(p: Packet): seq<byte>
    requires Serializable(p)
  {
    var n := |p.payload|;
    [p.mt % 4 * 32 + p.pbf % 2 * 16 + p.gid % 16, p.oid % 64,
     if p.mt == MT_DATA then n % 0x100 else 0,
     if p.mt == MT_DATA then n / 0x100 else n]
  }

  /** The bytes a serializable packet occupies on the wire. */
  function Encode(p: Packet): seq<byte>
    requires Serializable(p)
  {
    Header(p) + p.payload
  }

  method WriteHeader(p: Packet, buffer: array<byte>)
    requires Serializable(p) && buffer.Length >= HEADER_SIZE
    modifies buffer
    ensures buffer[..HEADER_SIZE] == Header(p) && buffer[HEADER_SIZE..] == old(buffer[HEADER_SIZE..])
  {
    buffer[0] := p.mt % 4 * 32 + p.pbf % 2 * 16 + p.gid % 16;
    buffer[1] := p.oid % 64;
    if p.mt == MT_DATA {
      buffer[2] := |p.payload| % 0x100;
      buffer[3] := |p.payload| / 0x100;
    } else {
      buffer[2] := 0;
      buffer[3] := |p.payload|;
    }
  }

  /** Fills the caller's buffer; fails without touching it when the packet is too long for its kind or the buffer. */
  method Serialize(p: Packet, buffer: array<byte>) returns (ok: bool, written: nat)
    modifies buffer
    ensures ok <==> Serializable(p) && HEADER_SIZE + |p.payload| <= buffer.Length
    ensures ok ==> written == HEADER_SIZE + |p.payload| && buffer[..written] == Encode(p)
    ensures ok ==>
              && buffer[0] == 32 * (p.mt % 4) + 16 * (p.pbf % 2) + p.gid % 16 && buffer[1] == p.oid % 64
              && (if p.mt == 0 then (buffer[2] as int) + 256 * (buffer[3] as int) == |p.payload|
                  else buffer[2] == 0 && buffer[3] == |p.payload|)
              && buffer[4..written] == p.payload
    ensures ok ==> buffer[written..] == old(buffer[..])[written..]
    ensures !ok ==> written == 0 && buffer[..] == old(buffer[..])
  {
    hide Header;
    if |p.payload| > MAX_PAYLOAD { return false, 0; }
    if p.mt != MT_DATA && |p.payload| > 255 { return false, 0; }
    if buffer.Length < HEADER_SIZE + |p.payload| { return false, 0; }
    ghost var before := buffer[..];
    WriteHeader(p, buffer);
    ghost var header := buffer[..HEADER_SIZE];
    forall k | 0 <= k < |p.payload| {
      buffer[HEADER_SIZE + k] := p.payload[k];
    }
    ok, written := true, HEADER_SIZE + |p.payload|;
    assert buffer[..HEADER_SIZE] == header;
    HeaderLayout(p);
    assert forall i :: 0 <= i < HEADER_SIZE ==> buffer[i] == header[i];
    assert buffer[HEADER_SIZE..written] == p.payload;
    assert buffer[..written] == buffer[..HEADER_SIZE] + buffer[HEADER_SIZE..written];
    assert buffer[written..] == before[HEADER_SIZE..][|p.payload|..];
  }

  // ----- the layout in bytes -----

  lemma HeaderLayout(p: Packet)
    requires Serializable(p)
    ensures var h := Header(p);
            && |h| == 4 && h[0] == 32 * (p.mt % 4) + 16 * (p.pbf % 2) + p.gid % 16 && h[1] == p.oid % 64
            && (if p.mt == 0 then (h[2] as int) + 256 * (h[3] as int) == |p.payload|
                else h[2] == 0 && h[3] == |p.payload|)
  {
  }

  /**
   The encoding byte by byte: a DATA length is two bytes, low byte first; any other length is the
   fourth byte alone.
   */
  lemma EncodeLayout(p: Packet)
    requires if p.mt == 0 then |p.payload| <= 1024 else |p.payload| <= 255
    ensures Serializable(p)
    ensures var b := Encode(p);
            && |b| == 4 + |p.payload| && b[4..] == p.payload
            && b[0] == 32 * (p.mt % 4) + 16 * (p.pbf % 2) + p.gid % 16 && b[1] == p.oid % 64
            && (if p.mt == 0 then (b[2] as int) + 256 * (b[3] as int) == |p.payload|
                else b[2] == 0 && b[3] == |p.payload|)
  {
    HeaderLayout(p);
  }

  /** Exactly which buffers hold a packet, and what each of their bytes means. */
  lemma ParseLayout(b: seq<byte>)
    ensures |b| < 4 ==> Parse(b) == None
    ensures |b| >= 4 ==>
              var n := if b[0] / 32 % 4 == 0 then (b[2] as int) + 256 * (b[3] as int) else b[3];
              && (Parse(b).Some? <==> n <= 1024 && |b| >= 4 + n)
              && (Parse(b).Some? ==>
                    var p := Parse(b).value;
                    && p.mt < 4 && p.pbf < 2 && p.gid < 16 && b[0] % 128 == 32 * p.mt + 16 * p.pbf + p.gid
                    && p.oid == b[1] % 64 && p.payload == b[4..4 + n])
  {
    if |b| >= 4 { HeaderParts(b[0], b[2], b[3]); }
  }

  /** Parsing what was serialized, whatever follows it in the buffer, gives the packet back. */
  lemma ParseEncode(p: Packet, rest: seq<byte>)
    requires InRange(p)
    ensures Parse(Encode(p) + rest) == Some(p)
    ensures DeclaredLength(Encode(p) + rest) == |p.payload|
  {
    var b := Encode(p) + rest;
    assert b[..4] == Header(p);
    HeaderBits(p.mt, p.pbf, p.gid);
    assert b[0] == p.mt * 32 + p.pbf * 16 + p.gid && b[1] == p.oid;
    assert b[2] == Header(p)[2] && b[3] == Header(p)[3];
    assert DeclaredLength(b) == |p.payload|;
    assert b[HEADER_SIZE..HEADER_SIZE + |p.payload|] == p.payload;
  }

  lemma HeaderBits(mt: byte, pbf: byte, gid: byte)
    requires mt < 4 && pbf < 2 && gid < 16
    ensures var b := mt * 32 + pbf * 16 + gid; b / 32 % 4 == mt && b / 16 % 2 == pbf && b % 16 == gid
  {
  }

  /** Serializing what was parsed reproduces the consumed bytes with the reserved bits cleared. */
  lemma EncodeParse(b: seq<byte>)
    requires Parse(b).Some?
    ensures var p := Parse(b).value;
            && Serializable(p)
            && Encode(p) == [b[0] % 128, b[1] % 64, if p.mt == MT_DATA then b[2] else 0, b[3]]
                            + b[HEADER_SIZE..HEADER_SIZE + DeclaredLength(b)]
  {
    var p := Parse(b).value;
    HeaderParts(b[0], b[2], b[3]);
    assert Header(p) == [b[0] % 128, b[1] % 64, if p.mt == MT_DATA then b[2] else 0, b[3]];
  }

  lemma HeaderParts(first: byte, third: byte, fourth: byte)
    ensures first % 128 == first / 32 % 4 * 32 + first / 16 % 2 * 16 + first % 16
    ensures first / 32 % 4 < 4 && first / 16 % 2 < 2 && first % 16 < 16
    ensures (third + 0x100 * fourth) % 0x100 == third && (third + 0x100 * fourth) / 0x100 == fourth
  {
  }
}
