/**
 * Little-endian byte fields of an IIO chunk.
 *
 * The chunk buffer is a `char *`. On the AArch64 target the program is built
 * for, `char` is unsigned, so every byte read from it is a value in 0..255.
 * That is the modelling assumption of this module: bytes are ints in 0..255.
 */
module Bytes {

  predicate IsByte(b: int) {
    0 <= b < 256
  }

  predicate AllBytes(s: seq<int>) {
    forall k :: 0 <= k < |s| ==> IsByte(s[k])
  }

  predicate IsI16(v: int) {
    -32768 <= v < 32768
  }

  predicate IsU16(v: int) {
    0 <= v < 65536
  }

  const TwoTo63: int := 0x8000_0000_0000_0000
  const TwoTo64: int := 0x1_0000_0000_0000_0000

  predicate IsI64(v: int) {
    -TwoTo63 <= v < TwoTo63
  }

  /** Conversion of an int to `short` (16-bit two's complement wrap-around). */
  function ToShort(x: int): (r: int)
    ensures IsI16(r)
    ensures (r - x) % 65536 == 0
  {
    (x + 32768) % 65536 - 32768
  }

  /** Conversion of an int to `unsigned short` (16-bit truncation). */
  function ToUShort(x: int): (r: int)
    ensures IsU16(r)
    ensures (r - x) % 65536 == 0
  {
    x % 65536
  }

  /**
   * The source's three statements `value = hi; value <<= 8; value += lo;`
   * on a `short value`: every assignment converts back to `short`.
   */
  function ShortFromBytes(lo: int, hi: int): (r: int)
    requires IsByte(lo) && IsByte(hi)
  {
    ToShort(ToShort(ToShort(hi) * 256) + lo)
  }

  /** The same three statements on an `unsigned short` target (distance, amplitude). */
  function UShortFromBytes(lo: int, hi: int): (r: int)
    requires IsByte(lo) && IsByte(hi)
  {
    ToUShort(ToUShort(ToUShort(hi) * 256) + lo)
  }

  /** Little-endian unsigned 16-bit value of two bytes. */
  function U16(lo: int, hi: int): (r: int)
    requires IsByte(lo) && IsByte(hi)
    ensures IsU16(r)
  {
    hi * 256 + lo
  }

  /** Little-endian two's-complement 16-bit value of two bytes. */
  function I16(lo: int, hi: int): (r: int)
    requires IsByte(lo) && IsByte(hi)
    ensures IsI16(r)
    ensures r >= 0 <==> hi < 128
  {
    var u := U16(lo, hi);
    if u < 32768 then u else u - 65536
  }

  /** The shift-and-add pattern on a `short` yields the little-endian int16. */
  lemma ShortFromBytesIsI16(lo: int, hi: int)
    requires IsByte(lo) && IsByte(hi)
    ensures ShortFromBytes(lo, hi) == I16(lo, hi)
  {
    var s := ToShort(hi * 256);
    assert s == if hi < 128 then hi * 256 else hi * 256 - 65536;
  }

  /** The shift-and-add pattern on an `unsigned short` yields the little-endian u16. */
  lemma UShortFromBytesIsU16(lo: int, hi: int)
    requires IsByte(lo) && IsByte(hi)
    ensures UShortFromBytes(lo, hi) == U16(lo, hi)
  {
  }

  /** The two bytes, low first, that store a 16-bit value (signed or not). */
  function Split16(v: int): (r: (int, int))
    requires IsI16(v) || IsU16(v)
    ensures IsByte(r.0) && IsByte(r.1)
  {
    var u := v % 65536;
    (u % 256, u / 256)
  }

  lemma I16Split(v: int)
    requires IsI16(v)
    ensures I16(Split16(v).0, Split16(v).1) == v
  {
  }

  lemma SplitI16(lo: int, hi: int)
    requires IsByte(lo) && IsByte(hi)
    ensures Split16(I16(lo, hi)) == (lo, hi)
  {
  }

  lemma U16Split(v: int)
    requires IsU16(v)
    ensures U16(Split16(v).0, Split16(v).1) == v
  {
  }

  lemma SplitU16(lo: int, hi: int)
    requires IsByte(lo) && IsByte(hi)
    ensures Split16(U16(lo, hi)) == (lo, hi)
  {
  }

  /** Unsigned little-endian value of a byte string. */
  function LeUnsigned(s: seq<int>): (r: nat)
    requires AllBytes(s)
  {
    if s == [] then 0 else s[0] + 256 * LeUnsigned(s[1..])
  }

  /** The `k` bytes, low first, of the unsigned value `u`. */
  function LeBytes(u: nat, k: nat): (r: seq<int>)
    ensures |r| == k && AllBytes(r)
  {
    if k == 0 then [] else [u % 256] + LeBytes(u / 256, k - 1)
  }

  function Pow256(k: nat): (r: nat)
    ensures r > 0
  {
    if k == 0 then 1 else 256 * Pow256(k - 1)
  }

  lemma {:induction false} LeUnsignedBound(s: seq<int>)
    requires AllBytes(s)
    ensures LeUnsigned(s) < Pow256(|s|)
  {
    if s != [] {
      LeUnsignedBound(s[1..]);
    }
  }

  lemma {:induction false} LeBytesLeUnsigned(u: nat, k: nat)
    requires u < Pow256(k)
    ensures LeUnsigned(LeBytes(u, k)) == u
  {
    if k > 0 {
      LeBytesLeUnsigned(u / 256, k - 1);
      assert LeBytes(u, k)[1..] == LeBytes(u / 256, k - 1);
    }
  }

  lemma {:induction false} LeUnsignedLeBytes(s: seq<int>)
    requires AllBytes(s)
    ensures LeBytes(LeUnsigned(s), |s|) == s
  {
    if s != [] {
      LeUnsignedLeBytes(s[1..]);
      var u := LeUnsigned(s);
      assert u % 256 == s[0] && u / 256 == LeUnsigned(s[1..]);
    }
  }

  lemma Pow256Of8()
    ensures Pow256(8) == TwoTo64
  {
  }

  /** The `long long` that `memcpy` assembles from eight bytes, low first. */
  function I64(s: seq<int>): (r: int)
    requires |s| == 8 && AllBytes(s)
    ensures IsI64(r)
  {
    LeUnsignedBound(s);
    Pow256Of8();
    var u := LeUnsigned(s);
    if u < TwoTo63 then u else u - TwoTo64
  }

  /** The eight bytes that store the `long long` `v`. */
  function Split64(v: int): (r: seq<int>)
    requires IsI64(v)
    ensures |r| == 8 && AllBytes(r)
  {
    LeBytes(v % TwoTo64, 8)
  }

  lemma I64Split(v: int)
    requires IsI64(v)
    ensures I64(Split64(v)) == v
  {
    Pow256Of8();
    LeBytesLeUnsigned(v % TwoTo64, 8);
  }

  lemma SplitI64(s: seq<int>)
    requires |s| == 8 && AllBytes(s)
    ensures Split64(I64(s)) == s
  {
    Pow256Of8();
    LeUnsignedBound(s);
    var u := LeUnsigned(s);
    assert I64(s) % TwoTo64 == u;
    LeUnsignedLeBytes(s);
  }
}
