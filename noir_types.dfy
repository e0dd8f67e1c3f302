/**
 * Fixed-width integer types of the hypervisor, the optional-value type, the
 * byte layout of a 32-bit store on a little-endian (x86) processor, and a
 * memory cell that an out-pointer refers to.
 */
module NoirTypes {

  type u8 = x: int | 0 <= x < 0x100
  type u16 = x: int | 0 <= x < 0x1_0000
  type u32 = x: int | 0 <= x < 0x1_0000_0000
  type u64 = x: int | 0 <= x < 0x1_0000_0000_0000_0000

  /** 2 to the power `n`. */
  function Pow2(n: nat): (p: nat)
    ensures p >= 1
  {
    if n == 0 then 1 else 2 * Pow2(n - 1)
  }

  lemma Pow2Of31()
    ensures Pow2(31) == 0x8000_0000
  {
    assert Pow2(8) == 0x100;
    assert Pow2(16) == 0x1_0000;
    assert Pow2(24) == 0x100_0000;
  }

  datatype Option<+T> = None | Some(value: T)

  /** A memory location of type T that C code reaches through a pointer. */
  class Slot<T> {
    var value: T

    constructor (v: T)
      ensures value == v
    {
      value := v;
    }
  }

  /** The four bytes, lowest address first, that an x86 processor writes when it stores `x`. */
  function LeBytes(x: u32): (b: seq<u8>)
    ensures |b| == 4
    ensures FromLeBytes(b) == x
  {
    var q1 := x / 0x100;
    var q2 := q1 / 0x100;
    var q3 := q2 / 0x100;
    assert x == x % 0x100 + 0x100 * (q1 % 0x100) + 0x1_0000 * (q2 % 0x100) + 0x100_0000 * q3;
    [x % 0x100, q1 % 0x100, q2 % 0x100, q3]
  }

  /** The 32-bit value an x86 processor loads from four bytes, lowest address first. */
  function FromLeBytes(b: seq<u8>): u32
    requires |b| == 4
  {
    var b0, b1, b2, b3: int := b[0], b[1], b[2], b[3];
    b0 + 0x100 * b1 + 0x1_0000 * b2 + 0x100_0000 * b3
  }

  /** Loading four bytes and storing the value back gives the same bytes. */
  lemma LeBytesOfFromLeBytes(b: seq<u8>)
    requires |b| == 4
    ensures LeBytes(FromLeBytes(b)) == b
  {
    var b0, b1, b2, b3: int := b[0], b[1], b[2], b[3];
    var x := FromLeBytes(b);
    assert x / 0x100 == b1 + 0x100 * b2 + 0x1_0000 * b3;
    assert x / 0x100 / 0x100 == b2 + 0x100 * b3;
    assert x / 0x100 / 0x100 / 0x100 == b3;
  }

  /** `s` with the bytes at `off .. off + |t|` replaced by `t`. */
  function Splice(s: seq<u8>, off: nat, t: seq<u8>): (r: seq<u8>)
    requires off + |t| <= |s|
    ensures |r| == |s|
    ensures r[off..off + |t|] == t
    ensures forall i :: 0 <= i < |s| && !(off <= i < off + |t|) ==> r[i] == s[i]
  {
    s[..off] + t + s[off + |t|..]
  }

  /** Two stores to adjacent ranges are one store of the concatenation. */
  lemma SpliceAdjacent(s: seq<u8>, off: nat, t1: seq<u8>, t2: seq<u8>)
    requires off + |t1| + |t2| <= |s|
    ensures Splice(Splice(s, off, t1), off + |t1|, t2) == Splice(s, off, t1 + t2)
  {
  }

  /** A 32-bit store through a `u32*` that points at byte `off` of `buf`. */
  method StoreU32(buf: array<u8>, off: nat, x: u32)
    requires off + 4 <= buf.Length
    modifies buf
    ensures buf[..] == Splice(old(buf[..]), off, LeBytes(x))
  {
    var b := LeBytes(x);
    buf[off] := b[0];
    buf[off + 1] := b[1];
    buf[off + 2] := b[2];
    buf[off + 3] := b[3];
    assert buf[..] == Splice(old(buf[..]), off, b) by {
      forall i | 0 <= i < buf.Length
        ensures buf[..][i] == Splice(old(buf[..]), off, b)[i]
      {
        if off <= i < off + 4 {
          assert Splice(old(buf[..]), off, b)[off..off + 4][i - off] == b[i - off];
        }
      }
    }
  }
}
