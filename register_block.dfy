/**
 * The UPS Plus register block: 255 byte slots, slot 0 a placeholder and
 * slots 1..254 one register each, with the little-endian assembly of 16-
 * and 32-bit values exactly as the exporter writes it (shifts and ORs).
 */
module RegisterBlock {
  import opened Bits

  /** What one `read_byte_data` returns. */
  type Byte = b: int | 0 <= b < 0x100

  /** Slots in the block: the placeholder plus registers 1..254. */
  const BLOCK_SIZE: nat := 255

  type Block = s: seq<Byte> | |s| == BLOCK_SIZE witness seq(BLOCK_SIZE, _ => 0)

  /** `buf[lo + 1] << 8 | buf[lo]`. */
  function LE16(buf: seq<Byte>, lo: nat): (r: nat)
    requires lo + 1 < |buf|
    ensures r == buf[lo] as int + 0x100 * (buf[lo + 1] as int)
    ensures r < 0x1_0000
  {
    Or16(buf[lo], buf[lo + 1]);
    Or(Shl(buf[lo + 1], 8), buf[lo])
  }

  /** `buf[lo + 3] << 24 | buf[lo + 2] << 16 | buf[lo + 1] << 8 | buf[lo]`. */
  function LE32(buf: seq<Byte>, lo: nat): (r: nat)
    requires lo + 3 < |buf|
    ensures r == buf[lo] as int + 0x100 * (buf[lo + 1] as int)
                 + 0x1_0000 * (buf[lo + 2] as int) + 0x100_0000 * (buf[lo + 3] as int)
    ensures r < 0x1_0000_0000
  {
    Or32(buf[lo], buf[lo + 1], buf[lo + 2], buf[lo + 3]);
    Or(Or(Or(Shl(buf[lo + 3], 24), Shl(buf[lo + 2], 16)), Shl(buf[lo + 1], 8)), buf[lo])
  }

  /** Writes a 16-bit value as two little-endian bytes at `lo`, `lo + 1`. */
  function PutLE16(buf: seq<Byte>, lo: nat, v: nat): (r: seq<Byte>)
    requires lo + 1 < |buf| && v < 0x1_0000
    ensures |r| == |buf|
    ensures LE16(r, lo) == v
    ensures forall i :: 0 <= i < |buf| && i != lo && i != lo + 1 ==> r[i] == buf[i]
  {
    buf[lo := v % 0x100][lo + 1 := v / 0x100]
  }

  /** Byte `k` (0 = least significant) of `v`. */
  function ByteOf(v: nat, k: nat): Byte
  {
    if k == 0 then v % 0x100 else ByteOf(v / 0x100, k - 1)
  }

  /** The four bytes of a 32-bit value put back together give the value. */
  lemma {:induction false} ByteOfSplit(v: nat)
    requires v < 0x1_0000_0000
    ensures v == ByteOf(v, 0) + 0x100 * ByteOf(v, 1) + 0x1_0000 * ByteOf(v, 2) + 0x100_0000 * ByteOf(v, 3)
  {
    var q1 := v / 0x100;
    var q2 := q1 / 0x100;
    var q3 := q2 / 0x100;
    assert ByteOf(v, 1) == q1 % 0x100;
    assert ByteOf(v, 2) == ByteOf(q1, 1) == q2 % 0x100;
    assert ByteOf(v, 3) == ByteOf(q1, 2) == ByteOf(q2, 1) == q3 % 0x100;
    assert q3 < 0x100;
  }

  /** Writes a 32-bit value as four little-endian bytes at `lo` .. `lo + 3`. */
  function PutLE32(buf: seq<Byte>, lo: nat, v: nat): (r: seq<Byte>)
    requires lo + 3 < |buf| && v < 0x1_0000_0000
    ensures |r| == |buf|
    ensures LE32(r, lo) == v
    ensures forall i :: 0 <= i < |buf| && !(lo <= i < lo + 4) ==> r[i] == buf[i]
  {
    ByteOfSplit(v);
    buf[lo := ByteOf(v, 0)][lo + 1 := ByteOf(v, 1)][lo + 2 := ByteOf(v, 2)][lo + 3 := ByteOf(v, 3)]
  }

  /** Writing back what was read changes nothing. */
  lemma PutLE16Read(buf: seq<Byte>, lo: nat)
    requires lo + 1 < |buf|
    ensures PutLE16(buf, lo, LE16(buf, lo)) == buf
  {
    var v := LE16(buf, lo);
    assert v % 0x100 == buf[lo] && v / 0x100 == buf[lo + 1];
  }

  /** Peeling the low byte off `b + 0x100 * rest`. */
  lemma ByteOfCons(b: Byte, rest: nat, k: nat)
    ensures ByteOf(b + 0x100 * rest, 0) == b
    ensures ByteOf(b + 0x100 * rest, k + 1) == ByteOf(rest, k)
  {
    assert (b + 0x100 * rest) / 0x100 == rest;
  }

  /** Writing back what was read changes nothing. */
  lemma PutLE32Read(buf: seq<Byte>, lo: nat)
    requires lo + 3 < |buf|
    ensures PutLE32(buf, lo, LE32(buf, lo)) == buf
  {
    var b0: Byte, b1: Byte, b2: Byte, b3: nat := buf[lo], buf[lo + 1], buf[lo + 2], buf[lo + 3];
    var r2: nat := b2 + 0x100 * b3;
    var r1: nat := b1 + 0x100 * r2;
    var v: nat := b0 + 0x100 * r1;
    assert LE32(buf, lo) == v;
    ByteOfCons(b0, r1, 0);
    ByteOfCons(b0, r1, 1);
    ByteOfCons(b0, r1, 2);
    ByteOfCons(b1, r2, 0);
    ByteOfCons(b1, r2, 1);
    ByteOfCons(b2, b3, 0);
    assert ByteOf(b3, 0) == b3;
  }

  /** A 16-bit field reads only its own two bytes. */
  lemma LE16Local(a: seq<Byte>, b: seq<Byte>, lo: nat)
    requires lo + 1 < |a| && lo + 1 < |b|
    requires a[lo] == b[lo] && a[lo + 1] == b[lo + 1]
    ensures LE16(a, lo) == LE16(b, lo)
  {
  }

  /** A 32-bit field reads only its own four bytes. */
  lemma LE32Local(a: seq<Byte>, b: seq<Byte>, lo: nat)
    requires lo + 3 < |a| && lo + 3 < |b|
    requires forall i :: lo <= i < lo + 4 ==> a[i] == b[i]
    ensures LE32(a, lo) == LE32(b, lo)
  {
    assert a[lo + 1] == b[lo + 1] && a[lo + 2] == b[lo + 2] && a[lo + 3] == b[lo + 3];
  }
}
