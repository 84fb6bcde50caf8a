/**
 * Octets and the little-endian integer codecs the PMScan code relies on:
 * Python's `struct` formats `<H`/`<I` and JavaScript's
 * `DataView.getUint16/getUint32/setUint32` with `littleEndian = true`.
 */
module Bytes {
  import opened Wrappers

  type byte = x: int | 0 <= x < 256

  const TWO_16: int := 0x1_0000
  const TWO_32: int := 0x1_0000_0000

  /** The unsigned 16-bit value stored little-endian at `off` (`getUint16(off, true)`, `<H`). */
  function U16At(s: seq<byte>, off: nat): (v: nat)
    requires off + 2 <= |s|
    ensures v < TWO_16
  {
    s[off] as int + 256 * (s[off + 1] as int)
  }

  /** The unsigned 32-bit value stored little-endian at `off` (`getUint32(off, true)`, `<I`). */
  function U32At(s: seq<byte>, off: nat): (v: nat)
    requires off + 4 <= |s|
    ensures v < TWO_32
  {
    U16At(s, off) + TWO_16 * U16At(s, off + 2)
  }

  /** The two little-endian bytes of a 16-bit value; reading them back gives the value. */
  function EncodeU16(x: nat): (r: seq<byte>)
    requires x < TWO_16
    ensures |r| == 2 && U16At(r, 0) == x
  {
    [x % 256, x / 256]
  }

  /** The four little-endian bytes of a 32-bit value; reading them back gives the value. */
  function EncodeU32(x: nat): (r: seq<byte>)
    requires x < TWO_32
    ensures |r| == 4 && U32At(r, 0) == x
  {
    var lo, hi := EncodeU16(x % TWO_16), EncodeU16(x / TWO_16);
    assert U16At(lo + hi, 0) == U16At(lo, 0);
    assert U16At(lo + hi, 2) == U16At(hi, 0);
    lo + hi
  }

  /** Reading a 16-bit field and re-encoding it gives back exactly the bytes it came from. */
  lemma U16Reencode(s: seq<byte>, off: nat)
    requires off + 2 <= |s|
    ensures EncodeU16(U16At(s, off)) == s[off..off + 2]
  {
  }

  /** Reading a 32-bit field and re-encoding it gives back exactly the bytes it came from. */
  lemma U32Reencode(s: seq<byte>, off: nat)
    requires off + 4 <= |s|
    ensures EncodeU32(U32At(s, off)) == s[off..off + 4]
  {
    U16Reencode(s, off);
    U16Reencode(s, off + 2);
  }

  /** Python's `struct.error` ("argument out of range") for `struct.pack("<I", t)`. */
  datatype PackError = ArgumentOutOfRange

  /**
   * `struct.pack("<I", t)`: four little-endian bytes when `0 <= t < 2^32`,
   * otherwise `struct.error` is raised.
   */
  function PackU32LE(t: int): (r: Result<seq<byte>, PackError>)
    ensures r.Ok? <==> 0 <= t < TWO_32
    ensures r.Ok? ==> |r.value| == 4 && U32At(r.value, 0) == t
  {
    if 0 <= t < TWO_32 then Ok(EncodeU32(t)) else Err(ArgumentOutOfRange)
  }

  /**
   * `new DataView(buffer).setUint32(0, t, true)` on a 4-byte buffer: JavaScript's
   * ToUint32 reduces `t` modulo 2^32 (never raising), then stores it little-endian.
   */
  function SetUint32LE(t: int): (r: seq<byte>)
    ensures |r| == 4 && U32At(r, 0) == t % TWO_32
  {
    EncodeU32(t % TWO_32)
  }
}
