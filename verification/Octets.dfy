/** Byte strings, bounded slices, and little-endian numbers. */
module Octets {
  import opened Wrappers

  type byte = x: int | 0 <= x < 256
  type Bytes = seq<byte>

  const WORD: nat := 0x1_0000_0000_0000_0000

  function Pow2(k: nat): (p: nat)
    ensures p > 0
  {
    if k == 0 then 1 else 2 * Pow2(k - 1)
  }

  /** The slice, unless it leaves the buffer or its end does not fit in a machine word. */
  function Range(bytes: Bytes, offset: nat, size: nat): (result: Result<Bytes>) {
    if offset + size >= WORD || offset + size > |bytes| then Err else Ok(bytes[offset..offset + size])
  }

  function LittleEndian(bytes: Bytes): (n: nat) {
    if bytes == [] then 0 else bytes[0] + 256 * LittleEndian(bytes[1..])
  }

  /** The bytes of a text of single-byte characters. */
  function Ascii(text: string): (bytes: Bytes)
    ensures |bytes| == |text|
  {
    seq(|text|, i requires 0 <= i < |text| => if text[i] < 256 as char then text[i] as nat else 0)
  }

  /** The n low-order bytes of a number, least significant first. */
  function ToLittleEndian(value: nat, n: nat): (bytes: Bytes)
    ensures |bytes| == n
  {
    if n == 0 then [] else [value % 256] + ToLittleEndian(value / 256, n - 1)
  }

  function Pow256(n: nat): (p: nat)
    ensures p > 0
  {
    if n == 0 then 1 else 256 * Pow256(n - 1)
  }

  /** Reading back what was written, for every value that fits. */
  lemma {:induction false} LittleEndianInverse(value: nat, n: nat)
    requires value < Pow256(n)
    ensures LittleEndian(ToLittleEndian(value, n)) == value
  {
    if n > 0 {
      LittleEndianInverse(value / 256, n - 1);
      assert ToLittleEndian(value, n)[1..] == ToLittleEndian(value / 256, n - 1);
    }
  }

  /** Writing back what was read, for every width. */
  lemma {:induction false} ToLittleEndianInverse(bytes: Bytes)
    ensures LittleEndian(bytes) < Pow256(|bytes|)
    ensures ToLittleEndian(LittleEndian(bytes), |bytes|) == bytes
  {
    if bytes != [] {
      ToLittleEndianInverse(bytes[1..]);
      var rest := LittleEndian(bytes[1..]);
      assert LittleEndian(bytes) == bytes[0] + 256 * rest;
      assert LittleEndian(bytes) % 256 == bytes[0] && LittleEndian(bytes) / 256 == rest;
      assert bytes == [bytes[0]] + bytes[1..];
    }
  }

  function U64At(bytes: Bytes, offset: nat): (result: Result<nat>) {
    var b :- Range(bytes, offset, 8);
    Ok(LittleEndian(b))
  }
}
