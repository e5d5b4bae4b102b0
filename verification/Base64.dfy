/**
 The text encodings of a subscription: padded standard base64, the unpadded
 base64url credential, percent escaping, and the one capability link they form.
 Text is a string of single-byte characters.
 */
module Base64 {
  import opened Wrappers
  import opened Octets

  /** The standard alphabet: upper case, lower case, digits, plus, slash. */
  function Symbol(n: nat): (c: char)
    requires n < 64
    ensures c != '='
  {
    if n < 26 then 'A' + n as char
    else if n < 52 then 'a' + (n - 26) as char
    else if n < 62 then '0' + (n - 52) as char
    else if n == 62 then '+' else '/'
  }

  /** The number a symbol of the standard alphabet stands for. */
  function Value(c: char): (found: Option<nat>) {
    if 'A' <= c <= 'Z' then Some((c - 'A') as nat)
    else if 'a' <= c <= 'z' then Some((c - 'a') as nat + 26)
    else if '0' <= c <= '9' then Some((c - '0') as nat + 52)
    else if c == '+' then Some(62)
    else if c == '/' then Some(63)
    else None
  }

  lemma SymbolValue(n: nat)
    requires n < 64
    ensures Value(Symbol(n)) == Some(n)
  {
  }

  // ----- Sextets --------------------------------------------------------------------

  function First(a: byte): (s: nat) ensures s < 64 { a / 4 }
  function Second(a: byte, b: byte): (s: nat) ensures s < 64 { a % 4 * 16 + b / 16 }
  function Third(b: byte, c: byte): (s: nat) ensures s < 64 { b % 16 * 4 + c / 64 }
  function Fourth(c: byte): (s: nat) ensures s < 64 { c % 64 }

  /** Three bytes from four sextets. */
  function Join(w: nat, x: nat, y: nat, z: nat): (parts: (byte, byte, byte))
    requires w < 64 && x < 64 && y < 64 && z < 64
  {
    (w * 4 + x / 16, x % 16 * 16 + y / 4, y % 4 * 64 + z)
  }

  lemma Above16(high: nat, low: nat)
    requires low < 16
    ensures (high * 16 + low) / 16 == high && (high * 16 + low) % 16 == low
  {
  }

  lemma Above4(high: nat, low: nat)
    requires low < 4
    ensures (high * 4 + low) / 4 == high && (high * 4 + low) % 4 == low
  {
  }

  lemma FirstByte(a: byte, b: byte)
    ensures First(a) * 4 + Second(a, b) / 16 == a
  {
    Above16(a % 4, b / 16);
  }

  lemma SecondByte(a: byte, b: byte, c: byte)
    ensures Second(a, b) % 16 * 16 + Third(b, c) / 4 == b
  {
    Above16(a % 4, b / 16);
    Above4(b % 16, c / 64);
  }

  lemma ThirdByte(b: byte, c: byte)
    ensures Third(b, c) % 4 * 64 + Fourth(c) == c
  {
    Above4(b % 16, c / 64);
  }

  lemma JoinInverts(a: byte, b: byte, c: byte)
    ensures Join(First(a), Second(a, b), Third(b, c), Fourth(c)) == (a, b, c)
  {
    hide First, Second, Third, Fourth;
    FirstByte(a, b);
    SecondByte(a, b, c);
    ThirdByte(b, c);
  }

  lemma SplitInverts(w: nat, x: nat, y: nat, z: nat)
    requires w < 64 && x < 64 && y < 64 && z < 64
    ensures var (a, b, c) := Join(w, x, y, z);
      First(a) == w && Second(a, b) == x && Third(b, c) == y && Fourth(c) == z
  {
  }

  // ----- Standard, padded -------------------------------------------------------------

  /** One group of up to three bytes. */
  function Group(chunk: Bytes): (text: string)
    requires 0 < |chunk| <= 3
  {
    var a := chunk[0];
    var b: byte := if |chunk| > 1 then chunk[1] else 0;
    var c: byte := if |chunk| > 2 then chunk[2] else 0;
    [Symbol(First(a)), Symbol(Second(a, b)),
     if |chunk| > 1 then Symbol(Third(b, c)) else '=',
     if |chunk| > 2 then Symbol(Fourth(c)) else '=']
  }

  function GroupSize(bytes: Bytes): (n: nat) { if |bytes| < 3 then |bytes| else 3 }

  function Encode(bytes: Bytes): (text: string) {
    if bytes == [] then "" else Group(bytes[..GroupSize(bytes)]) + Encode(bytes[GroupSize(bytes)..])
  }

  method Base64Standard(bytes: Bytes) returns (encoded: string)
    ensures encoded == Encode(bytes)
  {
    encoded := "";
    var rest := bytes;
    while rest != []
      invariant encoded + Encode(rest) == Encode(bytes)
      decreases |rest|
    {
      var n := GroupSize(rest);
      var group := EncodeGroup(rest[..n]);
      assert encoded + (group + Encode(rest[n..])) == (encoded + group) + Encode(rest[n..]);
      encoded := encoded + group;
      rest := rest[n..];
    }
  }

  /** Four characters, pushed one by one. */
  method EncodeGroup(chunk: Bytes) returns (group: string)
    requires 0 < |chunk| <= 3
    ensures group == Group(chunk)
  {
    var a := chunk[0];
    var b: byte := if |chunk| > 1 then chunk[1] else 0;
    var c: byte := if |chunk| > 2 then chunk[2] else 0;
    hide Symbol;
    group := [Symbol(a / 4)];
    group := group + [Symbol(a % 4 * 16 + b / 16)];
    group := group + [if |chunk| > 1 then Symbol(b % 16 * 4 + c / 64) else '='];
    group := group + [if |chunk| > 2 then Symbol(c % 64) else '='];
  }

  /** The decoder that accepts exactly what the encoder produces: DecodeInverts and EncodeInverts. */
  function Decode(text: string): (result: Result<Bytes>) {
    if text == "" then Ok([])
    else if |text| < 4 then Err
    else
      var w, x := Value(text[0]), Value(text[1]);
      if w.None? || x.None? then Err
      else if text[2] == '=' then
        if |text| == 4 && text[3] == '=' && x.value % 16 == 0 then Ok([w.value * 4 + x.value / 16]) else Err
      else
        var y := Value(text[2]);
        if y.None? then Err
        else if text[3] == '=' then
          if |text| == 4 && y.value % 4 == 0
          then Ok([w.value * 4 + x.value / 16, x.value % 16 * 16 + y.value / 4]) else Err
        else
          var z := Value(text[3]);
          if z.None? then Err
          else
            var rest :- Decode(text[4..]);
            var (a, b, c) := Join(w.value, x.value, y.value, z.value);
            Ok([a, b, c] + rest)
  }

  lemma DecodeOne(a: byte)
    ensures Decode(Group([a])) == Ok([a])
  {
    SymbolValue(First(a));
    SymbolValue(Second(a, 0));
    hide Symbol, Value;
    assert Second(a, 0) % 16 == 0 && First(a) * 4 + Second(a, 0) / 16 == a;
  }

  lemma DecodeTwo(a: byte, b: byte)
    ensures Decode(Group([a, b])) == Ok([a, b])
  {
    SymbolValue(First(a));
    SymbolValue(Second(a, b));
    SymbolValue(Third(b, 0));
    FirstByte(a, b);
    SecondByte(a, b, 0);
    assert Third(b, 0) % 4 == 0;
    hide Symbol, Value, First, Second, Third, Fourth;
  }

  lemma DecodeFull(chunk: Bytes, rest: string)
    requires |chunk| == 3
    ensures |Group(chunk)| == 4
    ensures Decode(Group(chunk) + rest) ==
      match Decode(rest)
      case Ok(tail) => Ok(chunk + tail)
      case Err => Err
  {
    var a, b, c := chunk[0], chunk[1], chunk[2];
    var text := Group(chunk) + rest;
    SymbolValue(First(a));
    SymbolValue(Second(a, b));
    SymbolValue(Third(b, c));
    SymbolValue(Fourth(c));
    hide Symbol, Value;
    JoinInverts(a, b, c);
    assert text[4..] == rest;
    assert chunk == [a, b, c];
  }

  lemma EncodeShort(bytes: Bytes)
    requires 0 < |bytes| < 3
    ensures Encode(bytes) == Group(bytes) && |Group(bytes)| == 4
  {
    assert bytes[..|bytes|] == bytes && bytes[|bytes|..] == [];
    assert Encode([]) == "";
  }

  lemma EncodeLong(bytes: Bytes)
    requires |bytes| >= 3
    ensures Encode(bytes) == Group(bytes[..3]) + Encode(bytes[3..])
  {
  }

  /** Decoding inverts encoding, so encoding is injective; four characters for every started group. */
  lemma {:induction false} DecodeInverts(bytes: Bytes)
    ensures Decode(Encode(bytes)) == Ok(bytes)
    ensures |Encode(bytes)| == (|bytes| + 2) / 3 * 4
  {
    hide *;
    if bytes == [] {
      EncodeNothing();
    } else if |bytes| < 3 {
      EncodeShort(bytes);
      if |bytes| == 1 {
        DecodeOne(bytes[0]);
        assert bytes == [bytes[0]];
      } else {
        DecodeTwo(bytes[0], bytes[1]);
        assert bytes == [bytes[0], bytes[1]];
      }
    } else {
      EncodeLong(bytes);
      DecodeInverts(bytes[3..]);
      DecodeFull(bytes[..3], Encode(bytes[3..]));
      assert bytes == bytes[..3] + bytes[3..];
      assert (|bytes| + 2) / 3 == (|bytes[3..]| + 2) / 3 + 1;
    }
  }

  lemma EncodeNothing()
    ensures Encode([]) == "" && Decode("") == Ok([])
  {
  }

  /** The symbol a number was read from. */
  lemma ValueSymbol(c: char)
    ensures Value(c).Some? ==> Value(c).value < 64 && Symbol(Value(c).value) == c
  {
  }

  lemma OneSplits(w: nat, x: nat)
    requires w < 64 && x < 64 && x % 16 == 0
    ensures First(w * 4 + x / 16) == w && Second(w * 4 + x / 16, 0) == x
  {
    var k := x / 16;
    assert x == 16 * k && k < 4;
    assert (w * 4 + k) / 4 == w && (w * 4 + k) % 4 == k;
  }

  lemma EncodeOne(w: nat, x: nat)
    requires w < 64 && x < 64 && x % 16 == 0
    ensures Encode([w * 4 + x / 16]) == [Symbol(w), Symbol(x), '=', '=']
  {
    OneSplits(w, x);
    EncodeShort([w * 4 + x / 16]);
    hide Symbol, Encode, First, Second, Third, Fourth;
  }

  lemma TwoSplits(w: nat, x: nat, y: nat)
    requires w < 64 && x < 64 && y < 64 && y % 4 == 0
    ensures var a, b := w * 4 + x / 16, x % 16 * 16 + y / 4;
      First(a) == w && Second(a, b) == x && Third(b, 0) == y
  {
    SplitInverts(w, x, y, 0);
  }

  lemma EncodeTwo(w: nat, x: nat, y: nat)
    requires w < 64 && x < 64 && y < 64 && y % 4 == 0
    ensures Encode([w * 4 + x / 16, x % 16 * 16 + y / 4]) == [Symbol(w), Symbol(x), Symbol(y), '=']
  {
    TwoSplits(w, x, y);
    EncodeShort([w * 4 + x / 16, x % 16 * 16 + y / 4]);
    hide Symbol, Encode, First, Second, Third, Fourth;
  }

  lemma EncodeThree(w: nat, x: nat, y: nat, z: nat, rest: Bytes)
    requires w < 64 && x < 64 && y < 64 && z < 64
    ensures var (a, b, c) := Join(w, x, y, z);
      Encode([a, b, c] + rest) == [Symbol(w), Symbol(x), Symbol(y), Symbol(z)] + Encode(rest)
  {
    var (a, b, c) := Join(w, x, y, z);
    EncodeLong([a, b, c] + rest);
    SplitInverts(w, x, y, z);
    hide Symbol, Encode, Join, First, Second, Third, Fourth;
    assert ([a, b, c] + rest)[..3] == [a, b, c] && ([a, b, c] + rest)[3..] == rest;
  }

  /** The four characters at the head of a decoded text, and what they stand for. */
  lemma DecodedHead(text: string)
    requires Decode(text).Ok? && text != ""
    ensures |text| >= 4 && Value(text[0]).Some? && Value(text[1]).Some?
    ensures Value(text[0]).value < 64 && Value(text[1]).value < 64
    ensures var w, x := Value(text[0]).value, Value(text[1]).value;
      if text[2] == '=' then
        |text| == 4 && text[3] == '=' && x % 16 == 0 && Decode(text).value == [w * 4 + x / 16]
      else
        && Value(text[2]).Some? && Value(text[2]).value < 64
        && var y := Value(text[2]).value;
           if text[3] == '=' then
             |text| == 4 && y % 4 == 0 && Decode(text).value == [w * 4 + x / 16, x % 16 * 16 + y / 4]
           else
             && Value(text[3]).Some? && Value(text[3]).value < 64 && Decode(text[4..]).Ok?
             && var (a, b, c) := Join(w, x, y, Value(text[3]).value);
                Decode(text).value == [a, b, c] + Decode(text[4..]).value
  {
    ValueSymbol(text[0]);
    ValueSymbol(text[1]);
    ValueSymbol(text[2]);
    ValueSymbol(text[3]);
    hide Value, Symbol, Join;
  }

  /** Whatever is decoded is the encoding of the result: nothing else is accepted. */
  lemma {:induction false} EncodeInverts(text: string)
    requires Decode(text).Ok?
    ensures Encode(Decode(text).value) == text
  {
    hide *;
    if text == "" {
      EncodeNothing();
    } else {
      DecodedHead(text);
      var w, x := Value(text[0]).value, Value(text[1]).value;
      ValueSymbol(text[0]);
      ValueSymbol(text[1]);
      ValueSymbol(text[2]);
      if text[2] == '=' {
        EncodeOne(w, x);
        assert text == [text[0], text[1], text[2], text[3]];
      } else if text[3] == '=' {
        EncodeTwo(w, x, Value(text[2]).value);
        assert text == [text[0], text[1], text[2], text[3]];
      } else {
        ValueSymbol(text[3]);
        EncodeInverts(text[4..]);
        EncodeThree(w, x, Value(text[2]).value, Value(text[3]).value, Decode(text[4..]).value);
        assert text == [text[0], text[1], text[2], text[3]] + text[4..];
      }
    }
  }

  lemma EncodeInjective(a: Bytes, b: Bytes)
    requires Encode(a) == Encode(b)
    ensures a == b
  {
    DecodeInverts(a);
    DecodeInverts(b);
  }

  // ----- The 32-byte credential ---------------------------------------------------------

  function UrlValue(c: char): (found: Option<nat>) {
    if 'A' <= c <= 'Z' then Some((c - 'A') as nat)
    else if 'a' <= c <= 'z' then Some((c - 'a') as nat + 26)
    else if '0' <= c <= '9' then Some((c - '0') as nat + 52)
    else if c == '-' then Some(62)
    else if c == '_' then Some(63)
    else None
  }

  function UrlSymbol(n: nat): (c: char)
    requires n < 64
    ensures UrlValue(c) == Some(n)
  {
    if n < 26 then 'A' + n as char
    else if n < 52 then 'a' + (n - 26) as char
    else if n < 62 then '0' + (n - 52) as char
    else if n == 62 then '-' else '_'
  }

  lemma UrlSymbolInverts(c: char)
    ensures UrlValue(c).Some? ==> UrlValue(c).value < 64 && UrlSymbol(UrlValue(c).value) == c
  {
  }

  /** Unpadded base64url. */
  function EncodeUrl(bytes: Bytes): (text: string) {
    if bytes == [] then ""
    else if |bytes| == 1 then [UrlSymbol(First(bytes[0])), UrlSymbol(Second(bytes[0], 0))]
    else if |bytes| == 2 then
      [UrlSymbol(First(bytes[0])), UrlSymbol(Second(bytes[0], bytes[1])), UrlSymbol(Third(bytes[1], 0))]
    else
      UrlGroup(bytes[0], bytes[1], bytes[2]) + EncodeUrl(bytes[3..])
  }

  /** Every character a symbol, and no stray bits in a last character that stands for two bytes. */
  predicate UrlText(text: string) {
    && (forall i :: 0 <= i < |text| ==> UrlValue(text[i]).Some?)
    && |text| % 4 == 3
    && UrlValue(text[|text| - 1]).value % 4 == 0
  }

  function UrlGroup(a: byte, b: byte, c: byte): (g: string)
    ensures |g| == 4 && forall i :: 0 <= i < 4 ==> UrlValue(g[i]).Some?
  {
    [UrlSymbol(First(a)), UrlSymbol(Second(a, b)), UrlSymbol(Third(b, c)), UrlSymbol(Fourth(c))]
  }

  lemma UrlTextExtends(head: string, tail: string)
    requires |head| == 4 && (forall i :: 0 <= i < 4 ==> UrlValue(head[i]).Some?) && UrlText(tail)
    ensures UrlText(head + tail)
  {
    hide UrlValue;
    assert (head + tail)[|head + tail| - 1] == tail[|tail| - 1];
  }

  lemma EncodedTwo(a: byte, b: byte)
    ensures |EncodeUrl([a, b])| == 3 && UrlText(EncodeUrl([a, b]))
  {
    var text := EncodeUrl([a, b]);
    hide UrlSymbol, UrlValue;
    assert text == [UrlSymbol(First(a)), UrlSymbol(Second(a, b)), UrlSymbol(Third(b, 0))];
    assert Third(b, 0) % 4 == 0;
  }

  lemma {:induction false} EncodedIsUrlText(bytes: Bytes)
    requires |bytes| % 3 == 2
    ensures UrlText(EncodeUrl(bytes)) && 3 * |EncodeUrl(bytes)| == 4 * |bytes| + 1
  {
    hide UrlText, UrlGroup, UrlSymbol;
    if |bytes| == 2 {
      assert bytes == [bytes[0], bytes[1]];
      EncodedTwo(bytes[0], bytes[1]);
    } else {
      EncodedIsUrlText(bytes[3..]);
      var head := UrlGroup(bytes[0], bytes[1], bytes[2]);
      assert EncodeUrl(bytes) == head + EncodeUrl(bytes[3..]);
      hide *;
      UrlTextExtends(head, EncodeUrl(bytes[3..]));
    }
  }

  /** Three characters with no stray bits are the encoding of two bytes. */
  lemma LastUrlGroup(text: string) returns (a: byte, b: byte)
    requires |text| == 3 && UrlText(text)
    ensures EncodeUrl([a, b]) == text
  {
    UrlSymbolInverts(text[0]);
    UrlSymbolInverts(text[1]);
    UrlSymbolInverts(text[2]);
    var w, x, y := UrlValue(text[0]).value, UrlValue(text[1]).value, UrlValue(text[2]).value;
    var (p, q, r) := Join(w, x, y, 0);
    SplitInverts(w, x, y, 0);
    a, b := p, q;
    hide UrlSymbol, UrlValue;
    assert r == 0;
    assert text == [text[0], text[1], text[2]];
  }

  lemma FullUrlGroup(group: string) returns (a: byte, b: byte, c: byte)
    requires |group| == 4 && forall i :: 0 <= i < 4 ==> UrlValue(group[i]).Some?
    ensures UrlGroup(a, b, c) == group
  {
    UrlSymbolInverts(group[0]);
    UrlSymbolInverts(group[1]);
    UrlSymbolInverts(group[2]);
    UrlSymbolInverts(group[3]);
    var w, x, y, z := UrlValue(group[0]).value, UrlValue(group[1]).value, UrlValue(group[2]).value,
                      UrlValue(group[3]).value;
    var (p, q, r) := Join(w, x, y, z);
    SplitInverts(w, x, y, z);
    a, b, c := p, q, r;
    hide UrlSymbol, UrlValue;
    assert group == [group[0], group[1], group[2], group[3]];
  }

  lemma EncodeUrlLong(a: byte, b: byte, c: byte, rest: Bytes)
    ensures EncodeUrl([a, b, c] + rest) == UrlGroup(a, b, c) + EncodeUrl(rest)
  {
    assert ([a, b, c] + rest)[3..] == rest;
    hide UrlGroup;
  }

  lemma UrlTextParts(text: string)
    requires UrlText(text) && |text| > 3
    ensures |text| >= 7 && UrlText(text[4..])
    ensures forall i :: 0 <= i < 4 ==> UrlValue(text[..4][i]).Some?
  {
    hide UrlValue;
    assert text[4..][|text| - 5] == text[|text| - 1];
  }

  lemma {:induction false} UrlTextIsEncoded(text: string) returns (bytes: Bytes)
    requires UrlText(text)
    ensures EncodeUrl(bytes) == text && 3 * |text| == 4 * |bytes| + 1
    decreases |text|
  {
    assert |text| >= 3;
    hide *;
    if |text| == 3 {
      var a, b := LastUrlGroup(text);
      bytes := [a, b];
    } else {
      UrlTextParts(text);
      var a, b, c := FullUrlGroup(text[..4]);
      var rest := UrlTextIsEncoded(text[4..]);
      bytes := [a, b, c] + rest;
      EncodeUrlLong(a, b, c, rest);
      assert text == text[..4] + text[4..];
    }
  }

  /** Counts symbols and keeps the last one; carriage returns and newlines may be tolerated. */
  method ValidBase64Url32(value: string, ignoreCrlf: bool) returns (valid: bool)
    ensures valid <==> Accepted(value, ignoreCrlf)
  {
    var count, last := 0, 0;
    var i := 0;
    assert Symbols(value[..0], ignoreCrlf) == "";
    hide UrlValue, Symbols;
    while i < |value|
      invariant 0 <= i <= |value|
      invariant Counted(Symbols(value[..i], ignoreCrlf), count, last) && count <= 43
    {
      SymbolsStep(value, ignoreCrlf, i);
      var c := value[i];
      if ignoreCrlf && (c == '\r' || c == '\n') {
        i := i + 1;
        continue;
      }
      var bits := UrlValue(c);
      if bits.None? {
        assert Symbols(value, ignoreCrlf)[count] == c;
        return false;
      }
      count := count + 1;
      if count > 43 {
        return false;
      }
      last := bits.value;
      i := i + 1;
    }
    assert value[..i] == value;
    return count == 43 && last % 4 == 0;
  }

  predicate Counted(symbols: string, count: nat, last: nat) {
    && count == |symbols|
    && (forall k :: 0 <= k < count ==> UrlValue(symbols[k]).Some?)
    && (count > 0 ==> UrlValue(symbols[count - 1]) == Some(last))
  }

  /** The characters that count. */
  function Symbols(value: string, ignoreCrlf: bool): (text: string) {
    if value == "" then ""
    else
      var rest := Symbols(value[1..], ignoreCrlf);
      if ignoreCrlf && (value[0] == '\r' || value[0] == '\n') then rest else [value[0]] + rest
  }

  predicate Accepted(value: string, ignoreCrlf: bool) {
    |Symbols(value, ignoreCrlf)| == 43 && UrlText(Symbols(value, ignoreCrlf))
  }

  lemma {:induction false} NothingIgnored(value: string)
    ensures Symbols(value, false) == value
  {
    if value != "" {
      NothingIgnored(value[1..]);
    }
  }

  lemma {:induction false} SymbolsSplit(a: string, b: string, ignoreCrlf: bool)
    ensures Symbols(a + b, ignoreCrlf) == Symbols(a, ignoreCrlf) + Symbols(b, ignoreCrlf)
  {
    if a == "" {
      assert a + b == b;
    } else {
      SymbolsSplit(a[1..], b, ignoreCrlf);
      assert (a + b)[1..] == a[1..] + b;
    }
  }

  lemma SymbolsStep(value: string, ignoreCrlf: bool, i: nat)
    requires i < |value|
    ensures Symbols(value[..i + 1], ignoreCrlf) ==
      Symbols(value[..i], ignoreCrlf)
      + (if ignoreCrlf && (value[i] == '\r' || value[i] == '\n') then "" else [value[i]])
    ensures Symbols(value, ignoreCrlf) == Symbols(value[..i + 1], ignoreCrlf) + Symbols(value[i + 1..], ignoreCrlf)
  {
    assert value[..i + 1] == value[..i] + [value[i]];
    SymbolsSplit(value[..i], [value[i]], ignoreCrlf);
    assert [value[i]][1..] == "";
    assert value == value[..i + 1] + value[i + 1..];
    SymbolsSplit(value[..i + 1], value[i + 1..], ignoreCrlf);
  }

  /** Without that tolerance, exactly the unpadded encodings of 32 bytes are accepted. */
  lemma AcceptedIsEncoded(value: string)
    ensures Accepted(value, false) <==> exists bytes :: |bytes| == 32 && EncodeUrl(bytes) == value
  {
    NothingIgnored(value);
    ValidIsEncoded(value);
    hide UrlText, EncodeUrl;
  }

  /** Forty-three such characters are exactly the encodings of 32 bytes. */
  lemma ValidIsEncoded(text: string)
    ensures |text| == 43 && UrlText(text) <==> exists bytes :: |bytes| == 32 && EncodeUrl(bytes) == text
  {
    if |text| == 43 && UrlText(text) {
      var bytes := UrlTextIsEncoded(text);
      assert |bytes| == 32;
    }
    forall bytes | |bytes| == 32 && EncodeUrl(bytes) == text ensures |text| == 43 && UrlText(text) {
      EncodedIsUrlText(bytes);
    }
  }
}
