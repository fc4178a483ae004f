/**
 Stream reassembly in the character-device transport
 (src/transport/chardev/uci_sim_chardev.c:67-123 and 245-276): bytes accumulate
 in a fixed buffer, complete packets are submitted, the tail moves to the front.
 */
module Chardevs {
  import opened Types
  import opened PacketCodec

  /**
   One pass over a byte stream: its complete packets, what follows them, and whether that starts with
   a refused header.
   */
  datatype Scanned = Scanned(packets: seq<Packet>, rest: seq<byte>, bad: bool)

  /** The length of the packet a buffer starts with, header included. */
  function Total(b: seq<byte>): nat
    requires |b| >= HEADER_SIZE
  {
    HEADER_SIZE + DeclaredLength(b)
  }

  /** Lengths over 255 are refused by this transport, even in DATA packets. */
  predicate Refused(b: seq<byte>) {
    |b| >= HEADER_SIZE && Total(b) > HEADER_SIZE + 255
  }

  predicate HasPacket(b: seq<byte>) {
    |b| >= HEADER_SIZE && Total(b) <= HEADER_SIZE + 255 && Total(b) <= |b|
  }

  function Head(b: seq<byte>): Packet
    requires HasPacket(b)
  {
    Parse(b[..Total(b)]).value
  }

  function Scan(b: seq<byte>): Scanned
    decreases |b|
  {
    if HasPacket(b) then
      var tail := Scan(b[Total(b)..]);
      Scanned([Head(b)] + tail.packets, tail.rest, tail.bad)
    else Scanned([], b, Refused(b))
  }

  lemma {:induction false} ScanTailBounded(b: seq<byte>)
    ensures !Scan(b).bad ==> |Scan(b).rest| <= 258
    ensures |Scan(b).rest| <= |b|
    decreases |b|
  {
    if HasPacket(b) { ScanTailBounded(b[Total(b)..]); }
  }

  /** What follows a header changes neither its verdict nor its packet. */
  lemma HeaderDecides(a: seq<byte>, b: seq<byte>)
    ensures Refused(a) ==> Refused(a + b)
    ensures HasPacket(a) ==> HasPacket(a + b) && Total(a + b) == Total(a) && Head(a + b) == Head(a)
                             && (a + b)[Total(a)..] == a[Total(a)..] + b
  {
    if |a| >= HEADER_SIZE {
      assert DeclaredLength(a + b) == DeclaredLength(a);
      if HasPacket(a) { assert (a + b)[..Total(a)] == a[..Total(a)]; }
    }
  }

  /** Scanning may stop anywhere and go on from what was left. */
  lemma {:induction false} ScanAppend(a: seq<byte>, b: seq<byte>)
    requires !Scan(a).bad
    ensures var first := Scan(a);
            var second := Scan(first.rest + b);
            Scan(a + b) == Scanned(first.packets + second.packets, second.rest, second.bad)
    decreases |a|
  {
    hide Head, Parse, DeclaredLength, Refused;
    if HasPacket(a) {
      HeaderDecides(a, b);
      PacketTakesBytes(a);
      var rest := a[Total(a)..];
      ScanAppend(rest, b);
      var tail, second := Scan(rest), Scan(Scan(rest).rest + b);
      assert [Head(a)] + (tail.packets + second.packets) == [Head(a)] + tail.packets + second.packets;
    } else {
      assert [] + Scan(a + b).packets == Scan(a + b).packets;
    }
  }

  lemma PacketTakesBytes(b: seq<byte>)
    requires HasPacket(b)
    ensures 0 < Total(b) <= |b|
  {
  }

  // ----- chunks -----

  function Flatten(chunks: seq<seq<byte>>): seq<byte>
    decreases |chunks|
  {
    if chunks == [] then [] else chunks[0] + Flatten(chunks[1..])
  }

  /** The part of a read that fits the buffer behind its tail; the excess is dropped. */
  function Clamped(tail: seq<byte>, chunk: seq<byte>): seq<byte>
    requires |tail| <= MAX_PACKET
  {
    chunk[..Min(|chunk|, MAX_PACKET - |tail|)]
  }

  /** Feeding reads one after another through the buffer. */
  function FeedAll(tail: seq<byte>, chunks: seq<seq<byte>>): Scanned
    requires |tail| <= MAX_PACKET
    decreases |chunks|
  {
    if chunks == [] then Scanned([], tail, false)
    else
      var s := Scan(tail + Clamped(tail, chunks[0]));
      ScanTailBounded(tail + Clamped(tail, chunks[0]));
      if s.bad then s
      else
        var more := FeedAll(s.rest, chunks[1..]);
        Scanned(s.packets + more.packets, more.rest, more.bad)
  }

  /**
   Reassembly does not depend on how a stream is cut into reads of at most 770
   bytes: the packets are those of the one-pass scan, the tail never exceeds 258
   bytes, and no read is clamped.
   */
  lemma {:induction false} ChunkingIrrelevant(tail: seq<byte>, chunks: seq<seq<byte>>)
    requires |tail| <= 258 && Scan(tail) == Scanned([], tail, false)
    requires forall i :: 0 <= i < |chunks| ==> |chunks[i]| <= 770
    requires !Scan(tail + Flatten(chunks)).bad
    ensures FeedAll(tail, chunks) == Scan(tail + Flatten(chunks)) && |FeedAll(tail, chunks).rest| <= 258
    ensures chunks != [] ==> Clamped(tail, chunks[0]) == chunks[0]
    decreases |chunks|
  {
    if chunks == [] {
      assert tail + Flatten(chunks) == tail;
    } else {
      var b := tail + chunks[0];
      assert Clamped(tail, chunks[0]) == chunks[0];
      assert tail + Flatten(chunks) == b + Flatten(chunks[1..]);
      GoodPrefix(b, Flatten(chunks[1..]));
      ScanTailBounded(b);
      ScanAppend(b, Flatten(chunks[1..]));
      ScanRestIdle(b);
      ChunkingIrrelevant(Scan(b).rest, chunks[1..]);
    }
  }

  /** A prefix of a good stream is good. */
  lemma {:induction false} GoodPrefix(a: seq<byte>, b: seq<byte>)
    requires !Scan(a + b).bad
    ensures !Scan(a).bad
    decreases |a|
  {
    HeaderDecides(a, b);
    if HasPacket(a) { GoodPrefix(a[Total(a)..], b); }
  }

  /** What a scan leaves holds no further packet. */
  lemma {:induction false} ScanRestIdle(b: seq<byte>)
    requires !Scan(b).bad
    ensures Scan(Scan(b).rest) == Scanned([], Scan(b).rest, false)
    decreases |b|
  {
    if HasPacket(b) { ScanRestIdle(b[Total(b)..]); }
  }

  // ----- the scan in terms of the wire -----

  predicate AllSerializable(ps: seq<Packet>) {
    forall i :: 0 <= i < |ps| ==> Serializable(ps[i])
  }

  /** The bytes of some packets, one behind the other. */
  function WireOf(ps: seq<Packet>): seq<byte>
    requires AllSerializable(ps)
    decreases |ps|
  {
    if ps == [] then [] else Encode(ps[0]) + WireOf(ps[1..])
  }

  /** A buffer that starts with a packet of at most 255 payload bytes gives that packet first. */
  lemma ScanFirst(p: Packet, rest: seq<byte>)
    requires InRange(p) && |p.payload| <= 255
    ensures var s := Scan(rest);
            Scan(Encode(p) + rest) == Scanned([p] + s.packets, s.rest, s.bad)
  {
    hide Parse, Encode, Scan;
    var b := Encode(p) + rest;
    EncodeLayout(p);
    ParseEncode(p, rest);
    ParseEncode(p, []);
    assert Total(b) == 4 + |p.payload| && HasPacket(b);
    assert b[..Total(b)] == Encode(p) + [] && b[Total(b)..] == rest;
    ScanTakes(b);
  }

  lemma ScanTakes(b: seq<byte>)
    requires HasPacket(b)
    ensures var tail := Scan(b[Total(b)..]); Scan(b) == Scanned([Head(b)] + tail.packets, tail.rest, tail.bad)
  {
  }

  /** Packets of at most 255 payload bytes that were sent one behind the other are all received, in order. */
  lemma {:induction false} ScanWire(ps: seq<Packet>, rest: seq<byte>)
    requires AllSerializable(ps) && forall i :: 0 <= i < |ps| ==> InRange(ps[i]) && |ps[i].payload| <= 255
    ensures var s := Scan(rest);
            Scan(WireOf(ps) + rest) == Scanned(ps + s.packets, s.rest, s.bad)
    decreases |ps|
  {
    hide Scan, Encode, InRange;
    if ps == [] {
      assert [] + rest == rest && ps + Scan(rest).packets == Scan(rest).packets;
    } else {
      ScanWire(ps[1..], rest);
      ScanFirst(ps[0], WireOf(ps[1..]) + rest);
      assert Encode(ps[0]) + WireOf(ps[1..]) + rest == Encode(ps[0]) + (WireOf(ps[1..]) + rest);
      assert [ps[0]] + (ps[1..] + Scan(rest).packets) == ps + Scan(rest).packets;
    }
  }

  /** What a buffer without a whole packet is: too short, waiting for the rest, or refused for a length over 255. */
  lemma ScanWaits(b: seq<byte>)
    ensures |b| < 4 ==> Scan(b) == Scanned([], b, false)
    ensures |b| >= 4 ==>
              var n := if b[0] / 32 % 4 == 0 then (b[2] as int) + 256 * (b[3] as int) else b[3];
              && (n > 255 ==> Scan(b) == Scanned([], b, true))
              && (n <= 255 && |b| < 4 + n ==> Scan(b) == Scanned([], b, false))
  {
  }

  // ----- the buffer -----

  /** The packets of a scan handed to the engine when it refuses the one with a given number, and then no more. */
  function Handed(packets: seq<Packet>, refused: nat): seq<Packet> {
    packets[..Min(refused + 1, |packets|)]
  }

  lemma AllHanded(packets: seq<Packet>, refused: nat)
    requires |packets| <= refused + 1
    ensures Handed(packets, refused) == packets
  {
  }

  /** The packets handed over so far are a prefix of those of the whole scan. */
  lemma HandedSoFar(all: seq<byte>, consumed: nat, before: seq<Packet>, submitted: seq<Packet>)
    requires ScannedTo(all, consumed, before, submitted) && |submitted| > |before|
    ensures submitted == before + Handed(Scan(all).packets, |submitted| - |before| - 1)
    ensures |submitted| - |before| <= |Scan(all).packets|
  {
    var whole := before + Scan(all).packets;
    assert submitted == (submitted + Scan(all[consumed..]).packets)[..|submitted|];
    assert whole[..|submitted|] == before + Scan(all).packets[..|submitted| - |before|];
  }

  /** The scan of a buffer has got to a position, with these packets submitted since. */
  ghost predicate ScannedTo(all: seq<byte>, consumed: nat, before: seq<Packet>, submitted: seq<Packet>) {
    && consumed <= |all|
    && Scan(all).bad == Scan(all[consumed..]).bad && Scan(all).rest == Scan(all[consumed..]).rest
    && submitted + Scan(all[consumed..]).packets == before + Scan(all).packets
  }

  lemma ScannedStart(all: seq<byte>, before: seq<Packet>)
    ensures ScannedTo(all, 0, before, before)
  {
    assert all[0..] == all;
  }

  /** Where no packet follows, the scan of the whole buffer is known. */
  lemma ScannedEnd(all: seq<byte>, consumed: nat, before: seq<Packet>, submitted: seq<Packet>)
    requires ScannedTo(all, consumed, before, submitted) && !HasPacket(all[consumed..])
    ensures Scan(all).bad == Refused(all[consumed..]) && Scan(all).rest == all[consumed..]
    ensures submitted == before + Scan(all).packets
  {
    ScanNow(all[consumed..]);
    assert submitted + [] == submitted;
  }

  lemma ScanNow(b: seq<byte>)
    ensures !HasPacket(b) ==> Scan(b) == Scanned([], b, Refused(b))
  {
  }

  /** The verdicts on a buffer in terms of the header bytes that the loop reads. */
  lemma HeaderRead(b: seq<byte>)
    ensures |b| < HEADER_SIZE ==> !HasPacket(b) && !Refused(b)
    ensures |b| >= HEADER_SIZE ==>
              var length := PayloadLength(b[0] / 32 % 4, b[2], b[3]);
              && Total(b) == HEADER_SIZE + length && (Refused(b) <==> length > 255)
              && (HasPacket(b) <==> length <= 255 && |b| >= HEADER_SIZE + length)
  {
  }

  lemma HeadParses(b: seq<byte>)
    requires HasPacket(b)
    ensures Parse(b[..Total(b)]) == Some(Head(b))
  {
  }

  lemma ScannedOn(all: seq<byte>, consumed: nat, before: seq<Packet>, submitted: seq<Packet>)
    requires ScannedTo(all, consumed, before, submitted) && HasPacket(all[consumed..])
    ensures ScannedTo(all, consumed + Total(all[consumed..]), before, submitted + [Head(all[consumed..])])
  {
    hide Head, Parse, DeclaredLength, Refused;
    var left := all[consumed..];
    PacketTakesBytes(left);
    assert left[Total(left)..] == all[consumed + Total(left)..];
    var tail := Scan(left[Total(left)..]);
    assert submitted + ([Head(left)] + tail.packets) == submitted + [Head(left)] + tail.packets;
  }

  class Chardev {
    const stream: array<byte>
    var slen: nat
    var submitted: seq<Packet>  // packets handed to the engine

    ghost predicate Valid()
      reads this
    {
      stream.Length == MAX_PACKET && slen <= MAX_PACKET
    }

    ghost function Tail(): seq<byte>
      reads this, stream
      requires Valid()
    {
      stream[..slen]
    }

    constructor ()
      ensures Valid() && fresh(stream) && Tail() == [] && submitted == []
    {
      stream := new byte[MAX_PACKET];
      slen := 0;
      submitted := [];
    }

    /**
     Submits every complete packet. A refused header, or a packet that the engine refuses,
     ends the call before the buffer is compacted; which packet of this call that is, if
     any, is up to the engine.
     */
    method FeedToEngine(refused: nat) returns (ok: bool)
      requires Valid()
      modifies this, stream
      ensures Valid()
      ensures var s := Scan(old(Tail()));
              && ok == (!s.bad && |s.packets| <= refused)
              && submitted == old(submitted) + Handed(s.packets, refused)
              && Tail() == if ok then s.rest else old(Tail())
    {
      hide Scan, Head, Handed, Total, Refused, HasPacket, ScannedTo, Parse, PayloadLength;
      ghost var all, before := Tail(), submitted;
      var consumed, start := 0, |submitted|;
      ScannedStart(all, before);
      while true
        invariant consumed <= slen == old(slen) && stream[..slen] == all
        invariant ScannedTo(all, consumed, before, submitted) && |submitted| - |before| <= refused
        decreases slen - consumed
      {
        ghost var left := all[consumed..];
        HeaderRead(left);
        if slen - consumed < HEADER_SIZE { break; }
        assert forall i :: 0 <= i < |left| ==> stream[consumed + i] == left[i];
        var length := PayloadLength(stream[consumed] / 32 % 4, stream[consumed + 2], stream[consumed + 3]);
        if length > 255 {
          ScannedEnd(all, consumed, before, submitted);
          AllHanded(Scan(all).packets, refused);
          return false;
        }
        var total := HEADER_SIZE + length;
        if slen - consumed < total { break; }
        var packet := Parse(stream[consumed..consumed + total]);
        assert stream[consumed..consumed + total] == left[..total];
        HeadParses(left);
        ScannedOn(all, consumed, before, submitted);
        submitted := submitted + [packet.value];
        if |submitted| - start > refused {
          HandedSoFar(all, consumed + total, before, submitted);
          return false;
        }
        consumed := consumed + total;
      }
      ScannedEnd(all, consumed, before, submitted);
      AllHanded(Scan(all).packets, refused);
      Compact(consumed);
      return true;
    }

    /** Moves what was not consumed to the front. */
    method Compact(consumed: nat)
      requires Valid() && consumed <= slen
      modifies this`slen, stream
      ensures Valid() && Tail() == old(Tail())[consumed..]
    {
      ghost var rest := stream[..slen][consumed..];
      forall k | 0 <= k < slen - consumed {
        stream[k] := stream[consumed + k];
      }
      slen := slen - consumed;
      assert stream[..slen] == rest;
    }

    /** Takes one read: what fits is appended behind the tail, then packets are fed on. */
    method ProcessInput(read: seq<byte>, refused: nat) returns (ok: bool)
      requires Valid()
      modifies this, stream
      ensures Valid()
      ensures var buffered := old(Tail()) + Clamped(old(Tail()), read);
              var s := Scan(buffered);
              && ok == (!s.bad && |s.packets| <= refused)
              && submitted == old(submitted) + Handed(s.packets, refused)
              && Tail() == if ok then s.rest else buffered
    {
      var copied := if slen + |read| > MAX_PACKET then MAX_PACKET - slen else |read|;
      ghost var before := Tail();
      forall k | 0 <= k < copied {
        stream[slen + k] := read[k];
      }
      slen := slen + copied;
      assert Tail() == before + Clamped(before, read);
      ok := FeedToEngine(refused);
    }
  }
}
