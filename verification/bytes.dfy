/** The byte-level vocabulary of a `DataView`: unsigned bytes, little-endian
    16- and 32-bit fields, the ECMAScript `ToUint16`/`ToUint32`/`ToInt16`
    conversions, and four-character ASCII tags. */
module Bytes {

  newtype uint8 = x: int | 0 <= x < 256

  const TWO16: nat := 0x1_0000
  const TWO32: nat := 0x1_0000_0000

  predicate IsUint16(v: int) { 0 <= v < TWO16 }
  predicate IsUint32(v: int) { 0 <= v < TWO32 }
  predicate IsInt16(v: int) { -0x8000 <= v < 0x8000 }

  /** ECMAScript `ToUint16` of an integral number: reduction modulo 2^16. */
  function ToUint16(x: int): (r: nat)
    ensures IsUint16(r)
    ensures IsUint16(x) ==> r == x
    ensures (r - x) % TWO16 == 0
  {
    x % TWO16
  }

  /** ECMAScript `ToUint32` of an integral number: reduction modulo 2^32. */
  function ToUint32(x: int): (r: nat)
    ensures IsUint32(r)
    ensures IsUint32(x) ==> r == x
    ensures (r - x) % TWO32 == 0
  {
    x % TWO32
  }

  /** Two's-complement bit pattern of a signed 16-bit value. */
  function Int16Bits(v: int): (u: nat)
    requires IsInt16(v)
    ensures IsUint16(u)
    ensures v >= 0 <==> u < 0x8000
  {
    ToUint16(v)
  }

  /** ECMAScript `ToInt16` of a 16-bit pattern: the signed reading. */
  function Int16Value(u: nat): (v: int)
    requires IsUint16(u)
    ensures IsInt16(v)
  {
    if u < 0x8000 then u else u - TWO16
  }

  lemma Int16RoundTrip(v: int)
    requires IsInt16(v)
    ensures Int16Value(Int16Bits(v)) == v
  {
  }

  /** `setUint16(pos, v, true)`: low byte first. */
  function LE16(v: nat): (b: seq<uint8>)
    requires IsUint16(v)
    ensures |b| == 2
  {
    [(v % 256) as uint8, (v / 256) as uint8]
  }

  /** `setUint32(pos, v, true)`: least significant byte first. */
  function LE32(v: nat): (b: seq<uint8>)
    requires IsUint32(v)
    ensures |b| == 4
  {
    var q1 := v / 256;
    var q2 := q1 / 256;
    [(v % 256) as uint8, (q1 % 256) as uint8, (q2 % 256) as uint8, (q2 / 256) as uint8]
  }

  /** `getUint16(pos, true)`. */
  function DecodeLE16(b: seq<uint8>): (v: nat)
    requires |b| == 2
    ensures IsUint16(v)
  {
    b[0] as nat + 256 * b[1] as nat
  }

  /** `getUint32(pos, true)`. */
  function DecodeLE32(b: seq<uint8>): (v: nat)
    requires |b| == 4
    ensures IsUint32(v)
  {
    b[0] as nat + 256 * (b[1] as nat + 256 * (b[2] as nat + 256 * b[3] as nat))
  }

  /** Splitting `a + 256 * q` at a byte boundary. */
  lemma ByteSplit(a: nat, q: nat)
    requires a < 256
    ensures (a + 256 * q) % 256 == a
    ensures (a + 256 * q) / 256 == q
  {
  }

  lemma DecodeEncode16(v: nat)
    requires IsUint16(v)
    ensures DecodeLE16(LE16(v)) == v
  {
  }

  lemma EncodeDecode16(b: seq<uint8>)
    requires |b| == 2
    ensures LE16(DecodeLE16(b)) == b
  {
  }

  lemma DecodeEncode32(v: nat)
    requires IsUint32(v)
    ensures DecodeLE32(LE32(v)) == v
  {
  }

  lemma EncodeDecode32(b: seq<uint8>)
    requires |b| == 4
    ensures LE32(DecodeLE32(b)) == b
  {
    var hi := b[2] as nat + 256 * b[3] as nat;
    var mid := b[1] as nat + 256 * hi;
    ByteSplit(b[0] as nat, mid);
    ByteSplit(b[1] as nat, hi);
    ByteSplit(b[2] as nat, b[3] as nat);
  }

  /** Bytes of an ASCII string, one per character. */
  function Ascii(s: string): (b: seq<uint8>)
    requires forall i :: 0 <= i < |s| ==> (s[i] as int) < 128
    ensures |b| == |s|
    ensures forall i :: 0 <= i < |s| ==> b[i] as int == s[i] as int
  {
    seq(|s|, i requires 0 <= i < |s| => (s[i] as int) as uint8)
  }
}
