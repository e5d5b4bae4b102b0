/** Percent escaping, canonical IPv4 text, and the HTTP capability link. */
module Link {
  import opened Wrappers
  import opened Base64

  // ----- Percent escaping -----------------------------------------------------------

  /** Characters that stand for themselves. */
  predicate Unreserved(c: char) {
    || 'A' <= c <= 'Z' || 'a' <= c <= 'z' || '0' <= c <= '9'
    || c == '-' || c == '_' || c == '.' || c == '~'
  }

  function UpperHex(n: nat): (c: char)
    requires n < 16
  {
    if n < 10 then '0' + n as char else 'A' + (n - 10) as char
  }

  function HexValue(c: char): (found: Option<nat>) {
    if '0' <= c <= '9' then Some((c - '0') as nat)
    else if 'A' <= c <= 'F' then Some((c - 'A') as nat + 10)
    else None
  }

  /** Text as the bytes it consists of. */
  predicate SingleBytes(value: string) { forall i :: 0 <= i < |value| ==> value[i] as nat < 256 }

  function EscapeChar(c: char): (text: string)
    requires c as nat < 256
  {
    if Unreserved(c) then [c] else ['%', UpperHex(c as nat / 16), UpperHex(c as nat % 16)]
  }

  function Escape(value: string): (text: string)
    requires SingleBytes(value)
  {
    if value == "" then "" else EscapeChar(value[0]) + Escape(value[1..])
  }

  method PercentEscape(value: string) returns (encoded: string)
    requires SingleBytes(value)
    ensures encoded == Escape(value)
  {
    encoded := "";
    assert value[0..] == value;
    for i := 0 to |value|
      invariant encoded + Escape(value[i..]) == Escape(value)
    {
      EscapeStep(encoded, value, i);
      var c := value[i];
      if Unreserved(c) {
        encoded := encoded + [c];
      } else {
        encoded := encoded + ['%'];
        encoded := encoded + [UpperHex(c as nat / 16)];
        encoded := encoded + [UpperHex(c as nat % 16)];
      }
    }
    assert value[|value|..] == "";
  }

  lemma EscapeStep(encoded: string, value: string, i: nat)
    requires SingleBytes(value) && i < |value|
    ensures encoded + Escape(value[i..]) == (encoded + EscapeChar(value[i])) + Escape(value[i + 1..])
    ensures Unreserved(value[i]) ==> encoded + EscapeChar(value[i]) == encoded + [value[i]]
    ensures !Unreserved(value[i]) ==>
      encoded + EscapeChar(value[i])
      == encoded + ['%'] + [UpperHex(value[i] as nat / 16)] + [UpperHex(value[i] as nat % 16)]
  {
    assert value[i..][1..] == value[i + 1..];
    hide UpperHex, Unreserved;
  }

  function Unescape(text: string): (result: Result<string>) {
    if text == "" then Ok("")
    else if text[0] != '%' then
      var rest :- Unescape(text[1..]);
      Ok([text[0]] + rest)
    else if |text| < 3 || HexValue(text[1]).None? || HexValue(text[2]).None? then Err
    else
      var rest :- Unescape(text[3..]);
      Ok([(HexValue(text[1]).value * 16 + HexValue(text[2]).value) as char] + rest)
  }

  lemma HexInverts(n: nat)
    requires n < 16
    ensures HexValue(UpperHex(n)) == Some(n)
  {
  }

  lemma UnescapeChar(c: char, rest: string)
    requires c as nat < 256
    ensures Unescape(EscapeChar(c) + rest) ==
      match Unescape(rest)
      case Ok(tail) => Ok([c] + tail)
      case Err => Err
  {
    var text := EscapeChar(c) + rest;
    if Unreserved(c) {
      assert text[1..] == rest;
    } else {
      HexInverts(c as nat / 16);
      HexInverts(c as nat % 16);
      hide UpperHex, HexValue, Unreserved;
      assert text[3..] == rest;
    }
  }

  /** Escaped text gives back exactly what was escaped. */
  lemma {:induction false} UnescapeInverts(value: string)
    requires SingleBytes(value)
    ensures Unescape(Escape(value)) == Ok(value)
  {
    if value != "" {
      UnescapeInverts(value[1..]);
      UnescapeChar(value[0], Escape(value[1..]));
      assert value == [value[0]] + value[1..];
    }
  }

  // ----- Canonical addresses ----------------------------------------------------------

  function Digit(n: nat): (c: char)
    requires n < 10
  {
    '0' + n as char
  }

  /** A byte in decimal, without leading zeros. */
  function Show(n: nat): (text: string)
    requires n < 256
  {
    if n < 10 then [Digit(n)]
    else if n < 100 then [Digit(n / 10), Digit(n % 10)]
    else [Digit(n / 100), Digit(n / 10 % 10), Digit(n % 10)]
  }

  function ShowAddress(a: nat, b: nat, c: nat, d: nat): (text: string)
    requires a < 256 && b < 256 && c < 256 && d < 256
  {
    Show(a) + "." + Show(b) + "." + Show(c) + "." + Show(d)
  }

  /** The text an address prints as, and no other way of writing one. */
  ghost predicate Canonical(ip: string) {
    exists a, b, c, d {:trigger ShowAddress(a, b, c, d)} ::
      0 <= a < 256 && 0 <= b < 256 && 0 <= c < 256 && 0 <= d < 256 && ip == ShowAddress(a, b, c, d)
  }

  predicate Plain(text: string) { forall i :: 0 <= i < |text| ==> text[i] != ':' }

  lemma PlainJoin(a: string, b: string)
    requires Plain(a) && Plain(b)
    ensures Plain(a + b)
  {
  }

  lemma ShowIsPlain(n: nat)
    requires n < 256
    ensures Plain(Show(n)) && Plain(".")
  {
  }

  lemma AddressIsPlain(a: nat, b: nat, c: nat, d: nat)
    requires a < 256 && b < 256 && c < 256 && d < 256
    ensures Plain(ShowAddress(a, b, c, d))
  {
    hide Plain, Show;
    ShowIsPlain(a);
    ShowIsPlain(b);
    ShowIsPlain(c);
    ShowIsPlain(d);
    PlainJoin(Show(a), ".");
    PlainJoin(Show(a) + ".", Show(b));
    PlainJoin(Show(a) + "." + Show(b), ".");
    PlainJoin(Show(a) + "." + Show(b) + ".", Show(c));
    PlainJoin(Show(a) + "." + Show(b) + "." + Show(c), ".");
    PlainJoin(Show(a) + "." + Show(b) + "." + Show(c) + ".", Show(d));
  }

  lemma CanonicalIsPlain(ip: string)
    requires Canonical(ip)
    ensures Plain(ip)
  {
    hide Plain, ShowAddress;
    var a, b, c, d :| 0 <= a < 256 && 0 <= b < 256 && 0 <= c < 256 && 0 <= d < 256 && ip == ShowAddress(a, b, c, d);
    AddressIsPlain(a, b, c, d);
  }

  // ----- The link ---------------------------------------------------------------------

  const SCHEME: string := "http://"
  const MIDDLE: string := ":8443/s/"

  predicate Credential(token: string) { |token| == 43 && Accepted(token, false) }

  ghost function New(ip: string, token: string): (result: Result<string>)
    requires Credential(token)
  {
    if Canonical(ip) then Ok(SCHEME + ip + MIDDLE + token) else Err
  }

  /** Splits at the first occurrence. */
  function SplitOnce(text: string, separator: string): (found: Option<(string, string)>) {
    if |text| < |separator| then None
    else if text[..|separator|] == separator then Some(("", text[|separator|..]))
    else if text == "" then None
    else
      match SplitOnce(text[1..], separator)
      case None => None
      case Some((before, after)) => Some(([text[0]] + before, after))
  }

  ghost function Parse(value: string): (result: Result<string>) {
    if !(SCHEME <= value) then Err
    else
      match SplitOnce(value[|SCHEME|..], MIDDLE)
      case None => Err
      case Some((ip, token)) => if Credential(token) then New(ip, token) else Err
  }

  /** The separator cannot start inside text without a colon. */
  lemma {:induction false} SplitsAfterPlain(ip: string, rest: string)
    requires Plain(ip)
    ensures SplitOnce(ip + MIDDLE + rest, MIDDLE) == Some((ip, rest))
  {
    var text := ip + MIDDLE + rest;
    if ip == "" {
      assert text == MIDDLE + rest;
    } else {
      assert text[0] == ip[0];
      assert MIDDLE[0] == ':';
      assert text[..|MIDDLE|][0] == ip[0];
      SplitsAfterPlain(ip[1..], rest);
      assert text[1..] == ip[1..] + MIDDLE + rest;
      assert ip == [ip[0]] + ip[1..];
    }
  }

  lemma Reassociate(a: string, b: string, c: string, d: string)
    ensures a + (b + c + d) == (a + b) + c + d
  {
  }

  lemma {:induction false} SplitJoins(text: string, separator: string)
    ensures SplitOnce(text, separator).Some? ==>
      text == SplitOnce(text, separator).value.0 + separator + SplitOnce(text, separator).value.1
  {
    if |text| >= |separator| && text[..|separator|] == separator {
      assert text == separator + text[|separator|..];
    } else if |text| >= |separator| && text != "" {
      SplitJoins(text[1..], separator);
      if SplitOnce(text[1..], separator).Some? {
        var (before, after) := SplitOnce(text[1..], separator).value;
        assert SplitOnce(text, separator) == Some(([text[0]] + before, after));
        hide SplitOnce;
        assert text == [text[0]] + text[1..];
        Reassociate([text[0]], before, separator, after);
      }
    }
  }

  /** Parsing inverts building, for every canonical address and credential. */
  lemma ParseInvertsNew(ip: string, token: string)
    requires Canonical(ip) && Credential(token)
    ensures New(ip, token).Ok? && Parse(New(ip, token).value) == New(ip, token)
  {
    CanonicalIsPlain(ip);
    hide Canonical, Credential;
    var link := SCHEME + ip + MIDDLE + token;
    assert link == SCHEME + (ip + MIDDLE + token);
    assert link[|SCHEME|..] == ip + MIDDLE + token;
    SplitsAfterPlain(ip, token);
  }

  /** Whatever parses is the link of exactly one address and credential, and parses to itself. */
  lemma ParsedIsBuilt(value: string)
    requires Parse(value).Ok?
    ensures Parse(value) == Ok(value)
    ensures exists ip, token {:trigger New(ip, token)} ::
      (Canonical(ip) && Credential(token) && New(ip, token) == Ok(value))
  {
    hide Canonical, Credential;
    SplitJoins(value[|SCHEME|..], MIDDLE);
    var (ip, token) := SplitOnce(value[|SCHEME|..], MIDDLE).value;
    assert value == SCHEME + value[|SCHEME|..];
    assert SCHEME + (ip + MIDDLE + token) == SCHEME + ip + MIDDLE + token;
    assert New(ip, token) == Ok(value);
  }
}
