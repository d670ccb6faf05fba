/**
 * Values shared by all HAL models: optional values, results, bytes,
 * the C integer widths the test code relies on, little-endian field
 * encoding, and the legacy/extended error-code switch used by every
 * conformance test.
 */
module HalCommon {

  datatype Option<T> = None | Some(value: T)

  datatype Result<T, E> = Ok(value: T) | Err(error: E)

  /** An unsigned 8-bit value, as written into a buffer or a file. */
  type Byte = x: int | 0 <= x < 256

  const U8: int := 0x100
  const U16: int := 0x1_0000
  const U32: int := 0x1_0000_0000
  const I32Max: int := 0x7FFF_FFFF

  /** The result of storing a non-negative value in a `uint32_t`. */
  function WrapU32(x: nat): (r: nat)
    ensures r < U32
    ensures x < U32 ==> r == x
  {
    x % U32
  }

  /**
   * The conformance tests compare a result with the "enhanced" code when the
   * platform profile declares extended enums, and with the "legacy" code
   * otherwise.
   */
  function Ext<E>(extended: bool, enhanced: E, legacy: E): E
  {
    if extended then enhanced else legacy
  }

  /** A 16-bit little-endian field. */
  function Le16(v: nat): (r: seq<Byte>)
    requires v < U16
    ensures |r| == 2
  {
    [v % 256, v / 256]
  }

  /** A 32-bit little-endian field. */
  function Le32(v: nat): (r: seq<Byte>)
    requires v < U32
    ensures |r| == 4
  {
    [v % 256, (v / 256) % 256, (v / 0x1_0000) % 256, v / 0x100_0000]
  }

  /** The unsigned value of a little-endian byte string. */
  function DecodeLe(s: seq<Byte>): (r: nat)
    ensures r < Pow256(|s|)
  {
    if s == [] then 0 else s[0] + 256 * DecodeLe(s[1..])
  }

  function Pow256(n: nat): (r: nat)
    ensures r >= 1
  {
    if n == 0 then 1 else 256 * Pow256(n - 1)
  }

  lemma Le16RoundTrip(v: nat)
    requires v < U16
    ensures DecodeLe(Le16(v)) == v
  {
    var s := Le16(v);
    assert s[1..][1..] == [];
    assert DecodeLe(s[1..]) == v / 256;
  }

  lemma {:induction false} Le32RoundTrip(v: nat)
    requires v < U32
    ensures DecodeLe(Le32(v)) == v
  {
    var s := Le32(v);
    var a, b, c, d := v % 256, (v / 256) % 256, (v / 0x1_0000) % 256, v / 0x100_0000;
    assert s[1..][1..][1..][1..] == [];
    assert DecodeLe(s[1..][1..][1..]) == d;
    assert DecodeLe(s[1..][1..]) == c + 256 * d;
    assert DecodeLe(s[1..]) == b + 256 * (c + 256 * d);
    assert v / 256 == b + 256 * (v / 0x1_0000) by {
      assert v / 0x1_0000 == (v / 256) / 256;
    }
    assert v / 0x1_0000 == c + 256 * d by {
      assert v / 0x100_0000 == (v / 0x1_0000) / 256;
    }
  }

  /** A four-character ASCII tag such as a RIFF chunk identifier. */
  function Tag(t: string): (r: seq<Byte>)
    requires |t| == 4 && forall i :: 0 <= i < 4 ==> t[i] as int < 256
    ensures |r| == 4
    ensures forall i :: 0 <= i < 4 ==> r[i] == t[i] as int
  {
    [t[0] as int, t[1] as int, t[2] as int, t[3] as int]
  }
}
