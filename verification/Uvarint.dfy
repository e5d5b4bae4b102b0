/**
 The length-prefixed strings of Go build information: a base-128 length, low
 groups first, then that many bytes.
 */
module Uvarint {
  import opened Wrappers
  import opened Octets

  /** Bitwise or of two numbers. */
  function BitOr(a: nat, b: nat): (n: nat) {
    if a == 0 && b == 0 then 0
    else (if a % 2 == 1 || b % 2 == 1 then 1 else 0) + 2 * BitOr(a / 2, b / 2)
  }

  /** A left shift in a 64-bit word. */
  function Shl(x: nat, k: nat): (n: nat) { (x * Pow2(k)) % WORD }

  /** The unique shortest encoding. */
  function Encode(n: nat): (e: Bytes)
    ensures |e| > 0
  {
    if n < 128 then [n] else [128 + n % 128] + Encode(n / 128)
  }

  // ----- Arithmetic ---------------------------------------------------------------

  /** Oring above the bits already there adds. */
  lemma {:induction false} OrAbove(a: nat, c: nat, k: nat)
    requires a < Pow2(k)
    ensures BitOr(a, c * Pow2(k)) == a + c * Pow2(k)
  {
    if k == 0 {
      OrZero(c);
    } else {
      var h := c * Pow2(k - 1);
      assert c * Pow2(k) == 2 * h;
      OrAbove(a / 2, c, k - 1);
      assert (2 * h) / 2 == h && (2 * h) % 2 == 0;
    }
  }

  lemma {:induction false} OrZero(b: nat)
    ensures BitOr(0, b) == b
  {
    if b != 0 {
      OrZero(b / 2);
    }
  }

  lemma Pow2Seven(k: nat)
    ensures Pow2(k + 7) == 128 * Pow2(k)
  {
    assert Pow2(k + 7) == 2 * Pow2(k + 6) == 4 * Pow2(k + 5) == 8 * Pow2(k + 4) == 16 * Pow2(k + 3);
    assert 16 * Pow2(k + 3) == 32 * Pow2(k + 2) == 64 * Pow2(k + 1) == 128 * Pow2(k);
  }

  lemma Pow2Values()
    ensures Pow2(63) == 0x8000_0000_0000_0000 && Pow2(64) == WORD && Pow2(56) == 0x100_0000_0000_0000
    ensures Pow2(7) == 128
  {
    Pow2Seven(0);
    Pow2Seven(7);
    Pow2Seven(14);
    Pow2Seven(21);
    Pow2Seven(28);
    Pow2Seven(35);
    Pow2Seven(42);
    Pow2Seven(49);
    Pow2Seven(56);
  }

  // ----- The encoding is a prefix code ------------------------------------------------

  /** No encoding begins another, so a buffer starts with at most one. */
  lemma {:induction false} PrefixFree(m: nat, n: nat, rest: Bytes, other: Bytes)
    requires Encode(m) + rest == Encode(n) + other
    ensures m == n && rest == other
  {
    var whole := Encode(m) + rest;
    assert whole[0] == Encode(m)[0] == Encode(n)[0];
    if m < 128 {
      assert n < 128;
      assert rest == whole[1..] && other == whole[1..];
    } else {
      assert n >= 128;
      assert whole[1..] == Encode(m / 128) + rest;
      assert whole[1..] == Encode(n / 128) + other;
      PrefixFree(m / 128, n / 128, rest, other);
    }
  }

  lemma {:induction false} EncodedSize(n: nat, k: nat)
    requires n < Pow2(7 * k + 7)
    ensures |Encode(n)| <= k + 1
    decreases k
  {
    if n >= 128 {
      if k == 0 {
        Pow2Seven(0);
      } else {
        Pow2Seven(7 * k);
        assert 7 * (k - 1) + 7 == 7 * k;
        EncodedSize(n / 128, k - 1);
      }
    }
  }

  /** Every 64-bit length takes at most ten bytes. */
  lemma TenBytes(n: nat)
    requires n < WORD
    ensures |Encode(n)| <= 10
  {
    Pow2Values();
    assert Pow2(70) == 64 * Pow2(64);
    EncodedSize(n, 9);
  }

  // ----- Decoding -----------------------------------------------------------------

  datatype Length = Length(value: nat, size: nat)

  /** The shortest-form length that begins here, if any, and how many bytes it takes. */
  function Decode(bytes: Bytes, at: nat): (result: Result<Length>)
    decreases |bytes| - at
  {
    if at >= |bytes| then Err
    else if bytes[at] < 128 then Ok(Length(bytes[at], 1))
    else
      var rest :- Decode(bytes, at + 1);
      if rest.value == 0 then Err else Ok(Length(bytes[at] - 128 + 128 * rest.value, rest.size + 1))
  }

  /** Decoding and encoding agree: a buffer starts with an encoding exactly when it decodes to it. */
  lemma {:induction false} DecodeInverts(bytes: Bytes, at: nat, n: nat)
    ensures at <= |bytes| && Encode(n) <= bytes[at..] <==> Decode(bytes, at) == Ok(Length(n, |Encode(n)|))
    decreases |bytes| - at
  {
    if at >= |bytes| {
    } else if bytes[at] < 128 {
      assert bytes[at..][0] == bytes[at];
      if n >= 128 {
        assert Encode(n)[0] >= 128;
      }
    } else {
      assert bytes[at..] == [bytes[at]] + bytes[at + 1..];
      DecodeInverts(bytes, at + 1, n / 128);
      if n >= 128 {
        assert Encode(n) == [128 + n % 128] + Encode(n / 128);
        assert Encode(n)[1..] == Encode(n / 128);
        if Encode(n) <= bytes[at..] {
          assert bytes[at..][1..] == bytes[at + 1..];
        }
      }
      if Decode(bytes, at).Ok? {
        var rest := Decode(bytes, at + 1).value;
        DecodeInverts(bytes, at + 1, rest.value);
        SizeIsEncoded(bytes, at + 1);
      }
    }
  }

  lemma {:induction false} SizeIsEncoded(bytes: Bytes, at: nat)
    ensures Decode(bytes, at).Ok? ==>
      Decode(bytes, at).value.size == |Encode(Decode(bytes, at).value.value)|
    decreases |bytes| - at
  {
    if at < |bytes| && bytes[at] >= 128 {
      SizeIsEncoded(bytes, at + 1);
    }
  }

  lemma GatheredBegins(bytes: Bytes, start: nat)
    ensures Gathered(bytes, start, 0, 0, 1)
  {
  }

  lemma RangeIs(bytes: Bytes, offset: nat, size: nat)
    requires |bytes| < WORD
    ensures Range(bytes, offset, size) ==
      if offset + size <= |bytes| then Ok(bytes[offset..offset + size]) else Err
  {
  }

  lemma NothingLeft(bytes: Bytes, start: nat, i: nat, length: nat, weight: nat)
    requires Gathered(bytes, start, i, length, weight) && start + i >= |bytes|
    ensures Decode(bytes, start).Err?
  {
  }

  lemma CompleteIs(bytes: Bytes, at: nat, d: Length)
    ensures Complete(bytes, at, d) <==> d.value < WORD && at + d.size + d.value <= |bytes|
  {
  }

  function Times(a: nat, b: nat): (n: nat) { a * b }

  /** What the loop has gathered, with the weight of the next group, determines the whole length. */
  predicate Gathered(bytes: Bytes, start: nat, i: nat, length: nat, weight: nat) {
    match Decode(bytes, start + i)
    case Err => Decode(bytes, start).Err?
    case Ok(rest) =>
      if i > 0 && rest.value == 0 then Decode(bytes, start).Err?
      else Decode(bytes, start) == Ok(Length(length + Times(rest.value, weight), rest.size + i))
  }

  lemma GatheredContinues(bytes: Bytes, start: nat, i: nat, length: nat, weight: nat)
    requires Gathered(bytes, start, i, length, weight) && start + i < |bytes| && bytes[start + i] >= 128
    ensures Gathered(bytes, start, i + 1, length + Times(bytes[start + i] - 128, weight), 128 * weight)
  {
    hide Times;
    var c: nat := bytes[start + i] - 128;
    var rest := Decode(bytes, start + i + 1);
    assert start + i + 1 == start + (i + 1);
    if rest.Ok? && rest.value.value > 0 {
      assert Decode(bytes, start + i) == Ok(Length(c + 128 * rest.value.value, rest.value.size + 1));
      hide Decode;
      Distribute(c, rest.value.value, weight);
    }
  }

  lemma Distribute(c: nat, m: nat, p: nat)
    ensures Times(c + 128 * m, p) == Times(c, p) + Times(m, 128 * p)
  {
  }

  lemma GroupFits(i: nat, group: nat)
    requires i <= 9 && group < 128 && (i == 9 ==> group <= 1)
    ensures group * Pow2(7 * i) < WORD
  {
    Pow2Values();
    if i < 9 {
      Pow2Monotone(7 * i, 56);
      Smaller(group, 127, Pow2(7 * i));
    }
  }

  lemma Smaller(a: nat, b: nat, p: nat)
    requires a <= b
    ensures a * p <= b * p
  {
  }

  lemma Pow2Monotone(a: nat, b: nat)
    requires a <= b
    ensures Pow2(a) <= Pow2(b)
  {
    if a < b {
      Pow2Monotone(a, b - 1);
    }
  }

  lemma NoWrap(x: nat)
    requires x < WORD
    ensures x % WORD == x
  {
  }

  /** The shift-or step of the loop adds the group in its place and loses no bit. */
  lemma ShiftOr(length: nat, i: nat, group: nat)
    requires i <= 9 && group < 128 && (i == 9 ==> group <= 1) && length < Pow2(7 * i)
    ensures BitOr(length, Shl(group, 7 * i)) == length + Times(group, Pow2(7 * i))
  {
    GroupFits(i, group);
    NoWrap(group * Pow2(7 * i));
    OrAbove(length, group, 7 * i);
    hide BitOr, Pow2;
  }

  /** A tenth byte above one announces more than a machine word. */
  lemma TooLong(bytes: Bytes, start: nat, length: nat)
    requires Gathered(bytes, start, 9, length, Pow2(63)) && start + 9 < |bytes| && bytes[start + 9] > 1
    ensures Decode(bytes, start).Ok? ==> Decode(bytes, start).value.value >= WORD
  {
    Pow2Values();
    var rest := Decode(bytes, start + 9);
    if rest.Ok? {
      var m := rest.value.value;
      assert m >= 2;
      hide Decode, Pow2;
      Smaller(2, m, Pow2(63));
    }
  }

  // ----- The cursor ---------------------------------------------------------------

  /** The string of length n that a canonical 64-bit length announces here. */
  predicate Announces(bytes: Bytes, at: nat, n: nat) {
    n < WORD && at <= |bytes| && Encode(n) <= bytes[at..] && at + |Encode(n)| + n <= |bytes|
  }

  /** A decoded length whose string is all there. */
  predicate Complete(bytes: Bytes, at: nat, d: Length) { d.value < WORD && at + d.size + d.value <= |bytes| }

  /** Strings announced here and lengths decoded here are the same thing, so there is at most one. */
  lemma AnnouncedIsDecoded(bytes: Bytes, at: nat, n: nat)
    requires at <= |bytes|
    ensures Announces(bytes, at, n) <==>
      Decode(bytes, at).Ok? && Decode(bytes, at).value.value == n && Complete(bytes, at, Decode(bytes, at).value)
    ensures Announces(bytes, at, n) ==> Decode(bytes, at).value.size == |Encode(n)| <= 10
  {
    DecodeInverts(bytes, at, n);
    SizeIsEncoded(bytes, at);
    if n < WORD {
      TenBytes(n);
    }
    hide Encode, Decode;
  }

  /**
   Reads one string and moves past it. It is accepted exactly when a length decodes
   and all the bytes it announces are there, and then the cursor has moved by exactly
   the prefix and the string.
   */
  method Varstring(bytes: Bytes, start: nat) returns (value: Result<Bytes>, cursor: nat)
    requires |bytes| < WORD && start <= |bytes|
    ensures start <= cursor <= |bytes|
    ensures value.Ok? <==> Decode(bytes, start).Ok? && Complete(bytes, start, Decode(bytes, start).value)
    ensures value.Ok? ==>
      var d := Decode(bytes, start).value;
      && value.value == bytes[start + d.size..start + d.size + d.value]
      && cursor == start + d.size + d.value
  {
    var length: nat := 0;
    ghost var weight := 1;
    cursor := start;
    var i := 0;
    assert Pow2(0) == 1;
    hide *;
    GatheredBegins(bytes, start);
    while i < 10
      invariant 0 <= i <= 9 && cursor == start + i <= |bytes|
      invariant weight == Pow2(7 * i)
      invariant Gathered(bytes, start, i, length, weight) && length < weight
      decreases 10 - i
    {
      if cursor >= |bytes| {
        NothingLeft(bytes, start, i, length, weight);
        return Err, cursor;
      }
      var b := bytes[cursor];
      cursor := cursor + 1;
      if i == 9 && b > 1 {
        TooLong(bytes, start, length);
        if Decode(bytes, start).Ok? {
          CompleteIs(bytes, start, Decode(bytes, start).value);
        }
        return Err, cursor;
      }
      GroupAdded(bytes, start, i, length, weight);
      length := BitOr(length, Shl(b % 128, 7 * i));
      if b < 128 {
        if i > 0 && b == 0 {
          return Err, cursor;
        }
        RangeIs(bytes, cursor, length);
        CompleteIs(bytes, start, Length(length, i + 1));
        value := Range(bytes, cursor, length);
        if value.Ok? {
          cursor := cursor + length;
        }
        return;
      }
      weight := 128 * weight;
      i := i + 1;
    }
  }

  /** One turn of the loop: the last group completes the length, any other leaves the rest to come. */
  lemma GroupAdded(bytes: Bytes, start: nat, i: nat, length: nat, weight: nat)
    requires i <= 9 && start + i < |bytes| && weight == Pow2(7 * i) && length < weight
    requires Gathered(bytes, start, i, length, weight) && (i == 9 ==> bytes[start + i] <= 1)
    ensures var b := bytes[start + i];
      var next := BitOr(length, Shl(b % 128, 7 * i));
      && (b < 128 ==>
            Decode(bytes, start) == if i > 0 && b == 0 then Err else Ok(Length(next, i + 1)))
      && (b >= 128 ==>
            i < 9 && Gathered(bytes, start, i + 1, next, 128 * weight) && next < 128 * weight
            && 128 * weight == Pow2(7 * (i + 1)))
  {
    hide *;
    var b := bytes[start + i];
    ShiftOr(length, i, b % 128);
    if b < 128 {
      LastGroup(bytes, start, i, length, weight);
    } else {
      GatheredContinues(bytes, start, i, length, weight);
      StillBelow(length, b % 128, weight);
      Pow2Seven(7 * i);
      assert 7 * (i + 1) == 7 * i + 7;
    }
  }

  lemma LastGroup(bytes: Bytes, start: nat, i: nat, length: nat, weight: nat)
    requires start + i < |bytes| && bytes[start + i] < 128 && Gathered(bytes, start, i, length, weight)
    ensures Decode(bytes, start) ==
      if i > 0 && bytes[start + i] == 0 then Err else Ok(Length(length + Times(bytes[start + i], weight), i + 1))
  {
    assert Decode(bytes, start + i) == Ok(Length(bytes[start + i], 1));
  }

  lemma StillBelow(length: nat, group: nat, weight: nat)
    requires length < weight && group < 128
    ensures length + Times(group, weight) < 128 * weight
  {
    Smaller(group, 127, weight);
  }
}
