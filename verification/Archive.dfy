/**
 The single-member ustar archive a release travels in: the bounded reader, the
 writer it must invert, and the octal fields between them. Decompression is a
 sequence of chunks of any size.
 */
module Archive {
  import opened Wrappers
  import opened Octets

  // ----- Octal fields -------------------------------------------------------------

  predicate OctalDigit(b: byte) { 48 <= b <= 55 }

  predicate Padding(b: byte) { b == 0 || b == 32 }

  function TrimLeft(bytes: Bytes): (trimmed: Bytes) {
    if bytes != [] && Padding(bytes[0]) then TrimLeft(bytes[1..]) else bytes
  }

  function TrimRight(bytes: Bytes): (trimmed: Bytes) {
    if bytes != [] && Padding(bytes[|bytes| - 1]) then TrimRight(bytes[..|bytes| - 1]) else bytes
  }

  function OctalValue(digits: Bytes): (n: nat)
    requires forall i :: 0 <= i < |digits| ==> OctalDigit(digits[i])
  {
    if digits == [] then 0
    else
      assert OctalDigit(digits[|digits| - 1]);
      8 * OctalValue(digits[..|digits| - 1]) + (digits[|digits| - 1] as int - 48)
  }

  function Octal(bytes: Bytes): (result: Result<nat>) {
    var value := TrimRight(TrimLeft(bytes));
    if value == [] || exists i :: 0 <= i < |value| && !OctalDigit(value[i]) then Err
    else Ok(OctalValue(value))
  }

  /** Zero-padded octal digits of fixed width. */
  function Digits(n: nat, width: nat): (d: Bytes)
    ensures |d| == width && forall i :: 0 <= i < |d| ==> OctalDigit(d[i])
  {
    if width == 0 then [] else Digits(n / 8, width - 1) + [48 + n % 8]
  }

  function Pow8(k: nat): (p: nat)
    ensures p > 0
  {
    if k == 0 then 1 else 8 * Pow8(k - 1)
  }

  lemma {:induction false} DigitsValue(n: nat, width: nat)
    requires n < Pow8(width)
    ensures OctalValue(Digits(n, width)) == n
  {
    if width > 0 {
      DigitsValue(n / 8, width - 1);
      assert Digits(n, width)[..width - 1] == Digits(n / 8, width - 1);
    }
  }

  lemma NoTrim(d: Bytes, tail: Bytes)
    requires d != [] && (forall i :: 0 <= i < |d| ==> OctalDigit(d[i]))
    requires |tail| <= 2 && forall i :: 0 <= i < |tail| ==> Padding(tail[i])
    ensures TrimRight(TrimLeft(d + tail)) == d
  {
    assert TrimLeft(d + tail) == d + tail by {
      assert (d + tail)[0] == d[0];
    }
    TrimTail(d, tail);
  }

  lemma {:induction false} TrimTail(d: Bytes, tail: Bytes)
    requires d != [] && OctalDigit(d[|d| - 1])
    requires forall i :: 0 <= i < |tail| ==> Padding(tail[i])
    ensures TrimRight(d + tail) == d
  {
    if tail == [] {
      assert d + tail == d;
    } else {
      var whole := d + tail;
      assert whole[|whole| - 1] == tail[|tail| - 1];
      assert whole[..|whole| - 1] == d + tail[..|tail| - 1];
      TrimTail(d, tail[..|tail| - 1]);
    }
  }

  /** Parsing inverts printing, with the terminators the format allows. */
  lemma OctalInverts(n: nat, width: nat, tail: Bytes)
    requires 0 < width && n < Pow8(width)
    requires |tail| <= 2 && forall i :: 0 <= i < |tail| ==> Padding(tail[i])
    ensures Octal(Digits(n, width) + tail) == Ok(n)
  {
    NoTrim(Digits(n, width), tail);
    DigitsValue(n, width);
  }

  // ----- Text fields --------------------------------------------------------------

  /** Everything before the first zero, if only zeros follow it. */
  function Text(bytes: Bytes): (result: Result<Bytes>) {
    if bytes == [] then Ok([])
    else if bytes[0] == 0 then
      if forall i :: 0 <= i < |bytes| ==> bytes[i] == 0 then Ok([]) else Err
    else
      var rest :- Text(bytes[1..]);
      Ok([bytes[0]] + rest)
  }

  function Zeros(n: nat): (z: Bytes)
    ensures |z| == n && forall i :: 0 <= i < n ==> z[i] == 0
  {
    seq(n, _ => 0)
  }

  lemma {:induction false} TextInverts(s: Bytes, n: nat)
    requires forall i :: 0 <= i < |s| ==> s[i] != 0
    ensures Text(s + Zeros(n)) == Ok(s)
  {
    if s == [] {
      assert s + Zeros(n) == Zeros(n);
    } else {
      TextInverts(s[1..], n);
      assert (s + Zeros(n))[1..] == s[1..] + Zeros(n);
      assert s == [s[0]] + s[1..];
    }
  }

  // ----- Checksum -----------------------------------------------------------------

  function Sum(bytes: Bytes): (n: nat) { if bytes == [] then 0 else bytes[0] + Sum(bytes[1..]) }

  lemma {:induction false} SumBound(bytes: Bytes)
    ensures Sum(bytes) <= 255 * |bytes|
  {
    if bytes != [] {
      SumBound(bytes[1..]);
    }
  }

  lemma {:induction false} SumSplits(a: Bytes, b: Bytes)
    ensures Sum(a + b) == Sum(a) + Sum(b)
  {
    if a == [] {
      assert a + b == b;
    } else {
      SumSplits(a[1..], b);
      assert (a + b)[1..] == a[1..] + b;
    }
  }

  /** The header sum with the checksum field read as spaces. */
  function HeaderSum(header: Bytes): (n: nat)
    requires |header| == 512
  {
    Sum(header[..148]) + 8 * 32 + Sum(header[156..])
  }

  // ----- Fields of a header -------------------------------------------------------

  function Concat(fields: seq<Bytes>): (bytes: Bytes) {
    if fields == [] then [] else Concat(fields[..|fields| - 1]) + fields[|fields| - 1]
  }

  function Offset(fields: seq<Bytes>, k: nat): (n: nat)
    requires k <= |fields|
  {
    if k == 0 then 0 else Offset(fields, k - 1) + |fields[k - 1]|
  }

  lemma {:induction false} FieldAt(fields: seq<Bytes>, k: nat)
    requires k < |fields|
    ensures |Concat(fields)| == Offset(fields, |fields|)
    ensures Offset(fields, k) + |fields[k]| <= |Concat(fields)|
    ensures Concat(fields)[Offset(fields, k)..Offset(fields, k) + |fields[k]|] == fields[k]
  {
    var front, last := fields[..|fields| - 1], fields[|fields| - 1];
    ConcatLength(front);
    OffsetPrefix(fields, |front|);
    if k < |front| {
      FieldAt(front, k);
      OffsetPrefix(fields, k);
      assert Concat(fields)[..|Concat(front)|] == Concat(front);
    }
  }

  lemma {:induction false} ConcatLength(fields: seq<Bytes>)
    ensures |Concat(fields)| == Offset(fields, |fields|)
  {
    if fields != [] {
      ConcatLength(fields[..|fields| - 1]);
      OffsetPrefix(fields, |fields| - 1);
    }
  }

  lemma {:induction false} OffsetPrefix(fields: seq<Bytes>, k: nat)
    requires k < |fields|
    ensures Offset(fields[..|fields| - 1], k) == Offset(fields, k)
  {
    if k > 0 {
      OffsetPrefix(fields, k - 1);
    }
  }

  /** The field boundaries of a ustar header, counted in fields. */
  predicate Layout(fields: seq<Bytes>) {
    && |fields| == 16
    && |fields[0]| == 100 && |fields[1]| == 8 && |fields[2]| == 8 && |fields[3]| == 8
    && |fields[4]| == 12 && |fields[5]| == 12 && |fields[6]| == 8 && |fields[7]| == 1
    && |fields[8]| == 100 && |fields[9]| == 8 && |fields[10]| == 32 && |fields[11]| == 32
    && |fields[12]| == 8 && |fields[13]| == 8 && |fields[14]| == 155 && |fields[15]| == 12
  }

  lemma LayoutOffsets(fields: seq<Bytes>)
    requires Layout(fields)
    ensures Offset(fields, 1) == 100 && Offset(fields, 2) == 108 && Offset(fields, 3) == 116
    ensures Offset(fields, 4) == 124 && Offset(fields, 5) == 136 && Offset(fields, 6) == 148
    ensures Offset(fields, 7) == 156 && Offset(fields, 8) == 157 && Offset(fields, 9) == 257
    ensures Offset(fields, 10) == 265 && Offset(fields, 11) == 297 && Offset(fields, 12) == 329
    ensures Offset(fields, 13) == 337 && Offset(fields, 14) == 345 && Offset(fields, 15) == 500
    ensures Offset(fields, 0) == 0 && |Concat(fields)| == 512
  {
    ConcatLength(fields);
    assert Offset(fields, 1) == 100;
    assert Offset(fields, 2) == 108;
    assert Offset(fields, 3) == 116;
    assert Offset(fields, 4) == 124;
    assert Offset(fields, 5) == 136;
    assert Offset(fields, 6) == 148;
    assert Offset(fields, 7) == 156;
    assert Offset(fields, 8) == 157;
    assert Offset(fields, 9) == 257;
    assert Offset(fields, 10) == 265;
    assert Offset(fields, 11) == 297;
    assert Offset(fields, 12) == 329;
    assert Offset(fields, 13) == 337;
    assert Offset(fields, 14) == 345;
    assert Offset(fields, 15) == 500;
    assert Offset(fields, 16) == 512;
  }

  // ----- Reading ------------------------------------------------------------------

  const NAME: Bytes := [115, 98, 120, 114]
  const ROOT: Bytes := [114, 111, 111, 116]
  const USTAR: Bytes := [117, 115, 116, 97, 114, 0, 48, 48]

  predicate HeaderAccepted(header: Bytes, size: nat)
    requires |header| == 512
  {
    && Octal(header[148..156]) == Ok(HeaderSum(header))
    && Octal(header[124..136]) == Ok(size)
    && Text(header[..100]) == Ok(NAME)
    && header[156] == 48
    && Text(header[157..257]) == Ok([])
    && Octal(header[100..108]) == Ok(493)
    && Octal(header[108..116]) == Ok(0)
    && Octal(header[116..124]) == Ok(0)
    && Text(header[265..297]) in {Ok([]), Ok(ROOT)}
    && Text(header[297..329]) in {Ok([]), Ok(ROOT)}
    && Text(header[345..500]) == Ok([])
    && header[257..265] == USTAR
  }

  function Padded(n: nat): (padded: nat) { (n + 511) / 512 * 512 }

  function Parse(tar: Bytes, limit: nat): (result: Result<Bytes>) {
    if |tar| < 512 then Err
    else
      var header := tar[..512];
      var size :- Octal(header[124..136]);
      if !HeaderAccepted(header, size) || size == 0 || size > limit
         || |tar| != Padded(512 + size) + 1024
         || exists i :: 512 + size <= i < |tar| && tar[i] != 0
      then Err
      else Ok(tar[512..512 + size])
  }

  /** Collects the decompressed chunks under the bound, then parses; trailing input is refused. */
  method Unpack(chunks: seq<Bytes>, drained: bool, limit: nat) returns (payload: Result<Bytes>)
    requires forall i :: 0 <= i < |chunks| ==> 0 < |chunks[i]| <= 8192
    ensures payload ==
      if |Concat(chunks)| > limit + 2048 || !drained then Err else Parse(Concat(chunks), limit)
  {
    var tar: Bytes := [];
    var i := 0;
    while i < |chunks|
      invariant 0 <= i <= |chunks| && tar == Concat(chunks[..i]) && |tar| <= limit + 2048
    {
      assert chunks[..i + 1][..i] == chunks[..i];
      if |tar| + |chunks[i]| > limit + 2048 {
        ConcatGrows(chunks, i + 1);
        return Err;
      }
      tar := tar + chunks[i];
      i := i + 1;
    }
    assert chunks[..i] == chunks;
    if !drained {
      return Err;
    }
    payload := Parse(tar, limit);
  }

  lemma {:induction false} ConcatGrows(chunks: seq<Bytes>, k: nat)
    requires k <= |chunks|
    ensures |Concat(chunks[..k])| <= |Concat(chunks)|
    decreases |chunks| - k
  {
    if k == |chunks| {
      assert chunks[..k] == chunks;
    } else {
      assert chunks[..k + 1][..k] == chunks[..k];
      ConcatGrows(chunks, k + 1);
    }
  }

  // ----- Writing ------------------------------------------------------------------

  function Fields(size: nat, checksum: Bytes): (parts: seq<Bytes>) {
    [NAME + Zeros(96), Digits(493, 7) + [0], Digits(0, 7) + [0], Digits(0, 7) + [0],
     Digits(size, 11) + [0], Digits(0, 11) + [0], checksum, [48],
     Zeros(100), USTAR, Zeros(32), Zeros(32),
     Digits(0, 7) + [0], Digits(0, 7) + [0], Zeros(155), Zeros(12)]
  }

  const SPACES: Bytes := [32, 32, 32, 32, 32, 32, 32, 32]

  function ChecksumField(size: nat): (bytes: Bytes) { Digits(Sum(Concat(Fields(size, SPACES))), 6) + [0, 32] }

  function Pack(payload: Bytes): (bytes: Bytes) {
    Concat(Fields(|payload|, ChecksumField(|payload|))) + payload
    + Zeros(Padded(512 + |payload|) - (512 + |payload|)) + Zeros(1024)
  }

  // ----- Round trip ---------------------------------------------------------------

  lemma Pow8Values()
    ensures Pow8(6) == 262144 && Pow8(7) == 2097152 && Pow8(11) == 8589934592
  {
    assert Pow8(3) == 512;
    assert Pow8(6) == 512 * Pow8(3);
    assert Pow8(9) == 512 * Pow8(6);
  }

  lemma FieldsLayout(size: nat, checksum: Bytes)
    requires |checksum| == 8
    ensures Layout(Fields(size, checksum))
  {
  }

  lemma {:induction false} ConcatSplit(fields: seq<Bytes>, k: nat)
    requires k <= |fields|
    ensures Concat(fields) == Concat(fields[..k]) + Concat(fields[k..])
  {
    if k == |fields| {
      assert fields[..k] == fields && fields[k..] == [];
    } else {
      var front, last := fields[..|fields| - 1], fields[|fields| - 1];
      ConcatSplit(front, k);
      assert fields[..k] == front[..k];
      assert fields[k..][..|fields[k..]| - 1] == front[k..];
      assert fields[k..][|fields[k..]| - 1] == last;
    }
  }

  lemma OnlyChecksumDiffers(size: nat, checksum: Bytes)
    ensures var f, g := Fields(size, checksum), Fields(size, SPACES);
      |f| == 16 && f[6] == checksum && f[..6] == g[..6] && f[7..] == g[7..]
  {
    hide Digits, Zeros;
  }

  /** What surrounds the checksum field does not depend on it. */
  lemma AroundChecksum(size: nat, checksum: Bytes)
    requires |checksum| == 8
    ensures var h := Concat(Fields(size, checksum));
      && |h| == 512
      && h[..148] == Concat(Fields(size, SPACES)[..6])
      && h[156..] == Concat(Fields(size, SPACES)[7..])
      && h[148..156] == checksum
      && Sum(h) == Sum(h[..148]) + Sum(checksum) + Sum(h[156..])
  {
    hide Concat, Offset, Sum, Layout;
    var f := Fields(size, checksum);
    FieldsLayout(size, checksum);
    LayoutOffsets(f);
    OnlyChecksumDiffers(size, checksum);
    hide Fields, Digits, Zeros;
    FieldAt(f, 6);
    SplitLengths(f);
    var h := Concat(f);
    ConcatSplit(f, 6);
    ConcatSplit(f, 7);
    assert h == h[..148] + checksum + h[156..] by {
      assert h[148..156] == checksum;
    }
    SumSplits(h[..148] + checksum, h[156..]);
    SumSplits(h[..148], checksum);
  }

  lemma SplitLengths(f: seq<Bytes>)
    requires Layout(f)
    ensures |Concat(f[..6])| == 148 && |Concat(f[..7])| == 156
  {
    ConcatLength(f[..6]);
    ConcatLength(f[..7]);
    LayoutOffsets(f);
    OffsetTake(f, 6, 6);
    OffsetTake(f, 7, 7);
  }

  lemma {:induction false} OffsetTake(f: seq<Bytes>, n: nat, k: nat)
    requires k <= n <= |f|
    ensures Offset(f[..n], k) == Offset(f, k)
  {
    if k > 0 {
      OffsetTake(f, n, k - 1);
    }
  }

  /** The recorded checksum is the one the reader computes, and it always fits its six digits. */
  lemma ChecksumMatches(size: nat)
    ensures var h := Concat(Fields(size, ChecksumField(size)));
      |h| == 512 && Octal(h[148..156]) == Ok(HeaderSum(h))
  {
    var total := Sum(Concat(Fields(size, SPACES)));
    AroundChecksum(size, SPACES);
    AroundChecksum(size, ChecksumField(size));
    SumBound(Concat(Fields(size, SPACES)));
    Pow8Values();
    assert total < Pow8(6);
    assert Sum(SPACES) == 256 by {
      assert SPACES[1..] == [32, 32, 32, 32, 32, 32, 32];
      SumOfSpaces(SPACES);
    }
    hide Fields, Concat, Sum, Pow8;
    OctalInverts(total, 6, [0, 32]);
  }

  lemma {:induction false} SumOfSpaces(bytes: Bytes)
    requires forall i :: 0 <= i < |bytes| ==> bytes[i] == 32
    ensures Sum(bytes) == 32 * |bytes|
  {
    if bytes != [] {
      SumOfSpaces(bytes[1..]);
    }
  }

  lemma NumbersMatch(size: nat)
    requires size < Pow8(11)
    ensures Octal(Digits(size, 11) + [0]) == Ok(size)
    ensures Octal(Digits(493, 7) + [0]) == Ok(493) && Octal(Digits(0, 7) + [0]) == Ok(0)
  {
    Pow8Values();
    OctalInverts(size, 11, [0]);
    OctalInverts(493, 7, [0]);
    OctalInverts(0, 7, [0]);
  }

  lemma TextsMatch()
    ensures Text(NAME + Zeros(96)) == Ok(NAME)
    ensures Text(Zeros(100)) == Ok([]) && Text(Zeros(32)) == Ok([]) && Text(Zeros(155)) == Ok([])
  {
    TextInverts(NAME, 96);
    TextInverts([], 100);
    TextInverts([], 32);
    TextInverts([], 155);
    assert [] + Zeros(100) == Zeros(100) && [] + Zeros(32) == Zeros(32) && [] + Zeros(155) == Zeros(155);
  }

  lemma FieldsInPlace(f: seq<Bytes>)
    requires Layout(f)
    ensures var h := Concat(f);
      && |h| == 512
      && h[..100] == f[0] && h[100..108] == f[1] && h[108..116] == f[2] && h[116..124] == f[3]
      && h[124..136] == f[4] && h[156..157] == f[7] && h[157..257] == f[8] && h[257..265] == f[9]
      && h[265..297] == f[10] && h[297..329] == f[11] && h[345..500] == f[14]
  {
    LayoutOffsets(f);
    FieldAt(f, 0);
    FieldAt(f, 1);
    FieldAt(f, 2);
    FieldAt(f, 3);
    FieldAt(f, 4);
    FieldAt(f, 7);
    FieldAt(f, 8);
    FieldAt(f, 9);
    FieldAt(f, 10);
    FieldAt(f, 11);
    FieldAt(f, 14);
    hide Offset, Concat;
  }

  lemma WrittenHeaderAccepted(size: nat)
    requires 0 < size < Pow8(11)
    ensures var h := Concat(Fields(size, ChecksumField(size)));
      |h| == 512 && HeaderAccepted(h, size) && Octal(h[124..136]) == Ok(size)
  {
    var c := ChecksumField(size);
    var f := Fields(size, c);
    FieldsLayout(size, c);
    FieldsInPlace(f);
    ChecksumMatches(size);
    NumbersMatch(size);
    TextsMatch();
    assert f[7] == [48] && f[9] == USTAR;
    hide Concat, Octal, Text, Layout, Digits, HeaderSum, ChecksumField, Pow8;
    var h := Concat(f);
    assert h[156] == h[156..157][0];
  }

  /**
   Reading inverts writing for every payload within the limit, however the
   decompressor cuts it up; the size bound never refuses a written archive.
   */
  lemma ReadsWritten(payload: Bytes, limit: nat)
    requires 0 < |payload| <= limit && |payload| < Pow8(11)
    ensures |Pack(payload)| <= |payload| + 2047 && |Pack(payload)| <= limit + 2048
    ensures Parse(Pack(payload), limit) == Ok(payload)
  {
    var n := |payload|;
    WrittenHeaderAccepted(n);
    var h := Concat(Fields(n, ChecksumField(n)));
    hide Concat, Fields, ChecksumField, HeaderAccepted, Octal, Pow8;
    var tar := Pack(payload);
    assert tar[..512] == h;
    assert tar[512..512 + n] == payload;
  }

  method UnpackWritten(payload: Bytes, chunks: seq<Bytes>, limit: nat) returns (result: Result<Bytes>)
    requires 0 < |payload| <= limit && |payload| < Pow8(11)
    requires forall i :: 0 <= i < |chunks| ==> 0 < |chunks[i]| <= 8192
    requires Concat(chunks) == Pack(payload)
    ensures result == Ok(payload)
  {
    ReadsWritten(payload, limit);
    hide *;
    result := Unpack(chunks, true, limit);
  }

  /** What an accepted archive is made of: one header, the payload, and zeros to the exact end. */
  lemma AcceptedIsExact(tar: Bytes, limit: nat)
    requires Parse(tar, limit).Ok?
    ensures var payload := Parse(tar, limit).value;
      && 0 < |payload| <= limit
      && |tar| == Padded(512 + |payload|) + 1024 && |tar| % 512 == 0
      && HeaderAccepted(tar[..512], |payload|)
      && tar == tar[..512] + payload + Zeros(|tar| - 512 - |payload|)
  {
    hide HeaderAccepted, Octal;
    var payload := Parse(tar, limit).value;
    var size := |payload|;
    assert tar[512 + size..] == Zeros(|tar| - 512 - size);
  }
}
