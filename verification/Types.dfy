/** Machine integers, little-endian fields and bit masks as the simulator uses them. */
module Types {
  type byte = x: int | 0 <= x < 0x100
  type uint16 = x: int | 0 <= x < 0x1_0000
  type uint32 = x: int | 0 <= x < 0x1_0000_0000

  datatype Option<+T> = None | Some(value: T)

  /** One parameter of a SET or GET list: id, then a length byte, then that many bytes. */
  datatype Tlv = Tlv(id: byte, value: seq<byte>)

  function U16(b: seq<byte>): uint16
    requires |b| == 2
  {
    (b[0] as int) + 0x100 * (b[1] as int)
  }

  function U32(b: seq<byte>): uint32
    requires |b| == 4
  {
    U16(b[..2]) as int + 0x1_0000 * (U16(b[2..]) as int)
  }

  function U16Bytes(v: uint16): (b: seq<byte>)
    ensures |b| == 2 && U16(b) == v
  {
    [v % 0x100, v / 0x100]
  }

  function U32Bytes(v: uint32): (b: seq<byte>)
    ensures |b| == 4 && U32(b) == v
  {
    var lo, hi := U16Bytes(v % 0x1_0000), U16Bytes(v / 0x1_0000);
    assert (lo + hi)[..2] == lo && (lo + hi)[2..] == hi;
    lo + hi
  }

  /** Bit n of a mask: the C test (mask & (1 << n)) != 0. */
  predicate Bit(mask: nat, n: nat) {
    if n == 0 then mask % 2 == 1 else Bit(mask / 2, n - 1)
  }

  lemma {:induction false} NoBits(n: nat)
    ensures !Bit(0, n)
  {
    if n > 0 { NoBits(n - 1); }
  }

  function Pow2(n: nat): (r: nat)
    ensures r > 0
  {
    if n == 0 then 1 else 2 * Pow2(n - 1)
  }

  /** A bit as the quotient by a power of two. */
  lemma {:induction false} BitIs(mask: nat, n: nat)
    ensures Bit(mask, n) <==> mask / Pow2(n) % 2 == 1
  {
    if n > 0 {
      BitIs(mask / 2, n - 1);
      HalvesFirst(mask, Pow2(n - 1));
    }
  }

  lemma HalvesFirst(a: nat, c: nat)
    requires c > 0
    ensures a / (2 * c) == a / 2 / c
  {
    var k, s, r := a / 2 / c, a / 2 % c, a % 2;
    assert a == 2 * c * k + (2 * s + r);
    QuotientUnique(a, 2 * c, k, 2 * s + r);
  }

  lemma QuotientUnique(a: nat, d: nat, k: nat, r: nat)
    requires d > 0 && a == d * k + r && r < d
    ensures a / d == k
  {
    var q := a / d;
    assert d * (q - k) == r - a % d;
    SmallMultiple(d, q - k);
  }

  lemma SmallMultiple(d: int, x: int)
    requires -d < d * x < d
    ensures x == 0
  {
  }

  /** The C test (v & ~mask) == 0 on bytes. */
  predicate WithinMask(v: byte, mask: byte) {
    forall n :: 0 <= n < 8 && Bit(v, n) ==> Bit(mask, n)
  }

  function Min(a: int, b: int): int {
    if a <= b then a else b
  }

  lemma {:induction false} SubsetCardinality(a: set<byte>, b: set<byte>)
    requires a <= b
    ensures |a| <= |b|
  {
    if a != {} {
      var x :| x in a;
      SubsetCardinality(a - {x}, b - {x});
    }
  }
}
