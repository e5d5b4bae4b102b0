/**
 The byte formats spelled out: their words as text, their headers as fields of given
 widths, and their small grammars by what they are written from.
 */
module Spelled {
  import opened Wrappers
  import opened Octets
  import Archive
  import Deb
  import Link
  import Trailer

  // ----- Words ----------------------------------------------------------------------

  /** Every word the formats compare with, and every limit. */
  lemma Words()
    ensures Trailer.MAGIC == Ascii("SBXR-IDENTITY-V1")
    ensures Trailer.MAX_EXECUTABLE_BYTES == 256 * 1024 * 1024 && Trailer.MAX_IDENTITY_BYTES == 4096
    ensures Archive.NAME == Ascii("sbxr") && Archive.ROOT == Ascii("root")
    ensures Archive.USTAR == Ascii("ustar") + [0] + Ascii("00")
    ensures Deb.AR == Ascii("!<arch>\n") && Deb.END == Ascii("`\n") && Deb.FORMAT == Ascii("2.0\n")
    ensures Deb.Name(0) == Ascii("debian-binary") && Deb.Name(1) == Ascii("control.tar.gz")
    ensures Deb.Name(2) == Ascii("data.tar.gz") && Deb.Name(3) == Ascii("_gpgorigin")
    ensures Deb.CONTROL_NAME == Ascii("./control") && Deb.MAX_CONTROL_BYTES == 1024 * 1024
  {
  }

  // ----- Headers by their fields -------------------------------------------------------

  predicate Blanks(bytes: Bytes) { forall i :: 0 <= i < |bytes| ==> bytes[i] == 0 }

  /** Where the fields of a ustar header are cut. */
  lemma Cut(f: seq<Bytes>)
    requires Archive.Layout(f)
    ensures var h := Archive.Concat(f);
      && |h| == 512
      && h[..100] == f[0] && h[100..108] == f[1] && h[108..116] == f[2] && h[116..124] == f[3]
      && h[124..136] == f[4] && h[148..156] == f[6] && [h[156]] == f[7] && h[157..257] == f[8]
      && h[257..265] == f[9] && h[265..297] == f[10] && h[297..329] == f[11] && h[345..500] == f[14]
  {
    hide *;
    Sixteen(f);
    Archive.LayoutOffsets(f);
    Archive.FieldAt(f, 0);
    Archive.FieldAt(f, 1);
    Archive.FieldAt(f, 2);
    Archive.FieldAt(f, 3);
    Archive.FieldAt(f, 4);
    Archive.FieldAt(f, 6);
    Archive.FieldAt(f, 7);
    Archive.FieldAt(f, 8);
    Archive.FieldAt(f, 9);
    Archive.FieldAt(f, 10);
    Archive.FieldAt(f, 11);
    Archive.FieldAt(f, 14);
    assert Archive.Concat(f)[156..157] == [Archive.Concat(f)[156]];
    assert Archive.Concat(f)[0..100] == Archive.Concat(f)[..100];
  }

  lemma Sixteen(f: seq<Bytes>)
    requires Archive.Layout(f)
    ensures |f| == 16
    ensures |f[0]| == 100 && |f[1]| == 8 && |f[2]| == 8 && |f[3]| == 8 && |f[4]| == 12 && |f[6]| == 8
    ensures |f[7]| == 1 && |f[8]| == 100 && |f[9]| == 8 && |f[10]| == 32 && |f[11]| == 32 && |f[14]| == 155
  {
  }

  /** A release header: the one file, executable by all, owned by root, and checked. */
  lemma ReleaseHeader(f: seq<Bytes>, size: nat)
    requires Archive.Layout(f)
    ensures |Archive.Concat(f)| == 512
    ensures Archive.HeaderAccepted(Archive.Concat(f), size) <==>
      && Archive.Text(f[0]) == Ok(Ascii("sbxr"))
      && Archive.Octal(f[1]) == Ok(7 * 64 + 5 * 8 + 5)
      && Archive.Octal(f[2]) == Ok(0) && Archive.Octal(f[3]) == Ok(0)
      && Archive.Octal(f[4]) == Ok(size)
      && Archive.Octal(f[6]) == Ok(Archive.HeaderSum(Archive.Concat(f)))
      && f[7] == Ascii("0") && Archive.Text(f[8]) == Ok([])
      && f[9] == Ascii("ustar") + [0] + Ascii("00")
      && Archive.Text(f[10]) in {Ok([]), Ok(Ascii("root"))}
      && Archive.Text(f[11]) in {Ok([]), Ok(Ascii("root"))}
      && Archive.Text(f[14]) == Ok([])
  {
    Cut(f);
    Words();
    Kinds();
    hide Archive.Concat, Archive.Layout, Archive.Text, Archive.Octal, Archive.HeaderSum, Ascii;
    hide Archive.NAME, Archive.ROOT, Archive.USTAR;
  }

  lemma Kinds()
    ensures Ascii("0") == [48] && Ascii("5") == [53]
  {
  }

  /** A control-archive header: a plain file or the root directory, under an allowed name. */
  lemma ControlHeader(utf8: Bytes -> bool, f: seq<Bytes>, size: nat)
    requires Archive.Layout(f)
    ensures |Archive.Concat(f)| == 512
    ensures Deb.HeaderAllowed(utf8, Archive.Concat(f), size) <==>
      && Archive.Text(f[0]).Ok?
      && (var name := Archive.Text(f[0]).value;
          && utf8(name) && Deb.NameAllowed(name)
          && (f[7] in {Ascii("0"), [0]}
              || (f[7] == Ascii("5") && size == 0 && name in {Ascii("."), Ascii("./")})))
      && Archive.Octal(f[4]) == Ok(size)
      && Archive.Octal(f[6]) == Ok(Archive.HeaderSum(Archive.Concat(f)))
      && f[9] in {Ascii("ustar") + [0] + Ascii("00"), Ascii("ustar") + Ascii("  ") + [0]}
      && Blanks(f[14])
  {
    Cut(f);
    Words();
    Kinds();
    Roots();
    var h := Archive.Concat(f);
    assert Blanks(f[14]) <==> forall i :: 345 <= i < 500 ==> h[i] == 0 by {
      hide *;
      Shifted(h, f[14]);
    }
    hide Archive.Concat, Archive.Layout, Archive.Text, Archive.Octal, Archive.HeaderSum, Ascii, Deb.NameAllowed, Blanks;
    hide Archive.USTAR, Deb.CONTROL_NAME;
  }

  lemma Shifted(h: Bytes, part: Bytes)
    requires |h| == 512 && part == h[345..500]
    ensures Blanks(part) <==> forall i :: 345 <= i < 500 ==> h[i] == 0
  {
    if Blanks(part) {
      forall i | 345 <= i < 500 ensures h[i] == 0 {
        assert part[i - 345] == h[i];
      }
    }
  }

  lemma Roots()
    ensures Ascii(".") == [46] && Ascii("./") == [46, 47] && Ascii("./control") !in {Ascii("."), Ascii("./")}
    ensures Ascii("ustar") + Ascii("  ") + [0] == [117, 115, 116, 97, 114, 32, 32, 0]
  {
  }

  /** Seven fields of an ar header. */
  predicate ArLayout(f: seq<Bytes>) {
    && |f| == 7 && |f[0]| == 16 && |f[1]| == 12 && |f[2]| == 6 && |f[3]| == 6 && |f[4]| == 8
    && |f[5]| == 10 && |f[6]| == 2
  }

  /** A package member: its name padded, its length in decimal, and something in it. */
  lemma MemberHeader(f: seq<Bytes>, body: Bytes, name: Bytes)
    requires ArLayout(f)
    ensures Deb.Describes(Deb.Member(f[0] + f[1] + f[2] + f[3] + f[4] + f[5] + f[6], body), name) <==>
      && Deb.Stripped(f[0]) == name && Deb.Decimal(f[5]) == Ok(|body|) && f[6] == Ascii("`\n") && body != []
  {
    hide Deb.Stripped, Deb.Decimal;
    Words();
    var h := f[0] + f[1] + f[2] + f[3] + f[4] + f[5] + f[6];
    assert |h| == 60 && h[..16] == f[0] && h[48..58] == f[5] && h[58..] == f[6];
  }

  // ----- Names and numbers ---------------------------------------------------------------

  predicate NoSlash(part: Bytes) { forall i :: 0 <= i < |part| ==> part[i] != Ascii("/")[0] }

  function Join(parts: seq<Bytes>): (name: Bytes)
    requires parts != []
  {
    if |parts| == 1 then parts[0] else parts[0] + Ascii("/") + Join(parts[1..])
  }

  lemma {:induction false} ComponentsOfOne(part: Bytes)
    requires NoSlash(part)
    ensures Deb.Components(part) == [part]
  {
    if part != [] {
      assert part[0] != 47;
      forall i | 0 <= i < |part[1..]| ensures part[1..][i] != 47 {
        assert part[1..][i] == part[i + 1];
      }
      ComponentsOfOne(part[1..]);
      assert part == [part[0]] + part[1..];
    }
  }

  lemma {:induction false} ComponentsOfFirst(part: Bytes, rest: Bytes)
    requires NoSlash(part)
    ensures Deb.Components(part + Ascii("/") + rest) == [part] + Deb.Components(rest)
  {
    var name := part + Ascii("/") + rest;
    if part == [] {
      assert name[0] == 47 && name[1..] == rest;
    } else {
      assert part[0] != 47 && name[0] == part[0];
      forall i | 0 <= i < |part[1..]| ensures part[1..][i] != 47 {
        assert part[1..][i] == part[i + 1];
      }
      ComponentsOfFirst(part[1..], rest);
      assert name[1..] == part[1..] + Ascii("/") + rest;
      assert part == [part[0]] + part[1..];
    }
  }

  /** The components of a name are what it was joined from. */
  lemma {:induction false} ComponentsOfJoined(parts: seq<Bytes>)
    requires parts != [] && forall part :: part in parts ==> NoSlash(part)
    ensures Deb.Components(Join(parts)) == parts
  {
    hide NoSlash, Ascii, Deb.Components;
    if |parts| == 1 {
      ComponentsOfOne(parts[0]);
    } else {
      ComponentsOfFirst(parts[0], Join(parts[1..]));
      ComponentsOfJoined(parts[1..]);
      assert parts == [parts[0]] + parts[1..];
    }
  }

  /** A control-archive name leads from the root down: no empty step, none that stays and none that climbs. */
  lemma NamesGoDown(parts: seq<Bytes>)
    requires parts != [] && forall part :: part in parts ==> NoSlash(part)
    ensures Deb.NameAllowed(Join([Ascii(".")] + parts)) <==>
      || parts == [[]]
      || forall part :: part in parts ==> part !in {[], Ascii("."), Ascii("..")}
  {
    var all := [Ascii(".")] + parts;
    assert all[1..] == parts;
    assert Join(all) == Ascii(".") + Ascii("/") + Join(parts);
    forall part | part in all ensures NoSlash(part) {
      if part !in parts {
        assert part == Ascii(".");
      }
    }
    ComponentsOfJoined(all);
    Dots();
    AllowedParts(parts);
    hide Ascii, NoSlash, Deb.Components, Deb.PartsAllowed;
    assert Join(all)[..2] == [46, 47];
    assert Join(all) == [46, 47] <==> Join(parts) == [];
    JoinedEmpty(parts);
  }

  lemma Dots()
    ensures Ascii(".") == [46] && Ascii("..") == [46, 46] && Ascii("/") == [47]
  {
  }

  lemma JoinedEmpty(parts: seq<Bytes>)
    requires parts != []
    ensures Join(parts) == [] <==> parts == [[]]
  {
  }

  lemma AllowedParts(parts: seq<Bytes>)
    ensures Deb.PartsAllowed([Ascii(".")] + parts) <==>
      forall part :: part in parts ==> part !in {[], Ascii("."), Ascii("..")}
  {
    Dots();
    hide Ascii;
    var all := [Ascii(".")] + parts;
    if Deb.PartsAllowed(all) {
      forall part | part in parts ensures part !in {[], Ascii("."), Ascii("..")} {
        var k :| 0 <= k < |parts| && parts[k] == part;
        assert all[k + 1] == part;
      }
    }
    if forall part :: part in parts ==> part !in {[], Ascii("."), Ascii("..")} {
      forall k | 1 <= k < |all| ensures all[k] !in {[], [46], [46, 46]} {
        assert all[k] == parts[k - 1];
        assert all[k] in parts;
      }
    }
  }

  /** A name that does not lead from the root is refused. */
  lemma NamesStartAtRoot(name: Bytes)
    requires Deb.NameAllowed(name)
    ensures name == Ascii(".") || Ascii("./") <= name
  {
    Roots();
    hide Ascii;
  }

  /** A number as it is written in decimal. */
  function Written(n: nat): (text: Bytes)
    ensures text != [] && forall i :: 0 <= i < |text| ==> Deb.DecimalDigit(text[i])
  {
    (if n < 10 then [] else Written(n / 10)) + [Ascii("0123456789")[n % 10]]
  }

  lemma {:induction false} WrittenValue(n: nat)
    ensures Deb.DecimalValue(Written(n)) == n
  {
    assert Ascii("0123456789")[n % 10] == 48 + n % 10;
    if n >= 10 {
      WrittenValue(n / 10);
      assert Written(n)[..|Written(n)| - 1] == Written(n / 10);
    } else {
      assert Written(n)[..|Written(n)| - 1] == [];
    }
  }

  lemma {:induction false} TrimsAfter(text: Bytes, n: nat)
    requires text != [] && !Archive.Padding(text[|text| - 1])
    ensures Archive.TrimRight(text + seq(n, _ => 32)) == text
  {
    var whole := text + seq(n, _ => 32);
    if n == 0 {
      assert whole == text;
    } else {
      assert whole[|whole| - 1] == 32;
      assert whole[..|whole| - 1] == text + seq(n - 1, _ => 32);
      TrimsAfter(text, n - 1);
    }
  }

  /** A length padded with spaces, as ar writes it, is read back. */
  lemma DecimalInverts(n: nat, padding: nat)
    ensures Deb.Decimal(Written(n) + seq(padding, _ => 32)) == Ok(n)
  {
    var text := Written(n);
    WrittenValue(n);
    hide Written, Deb.DecimalValue;
    var field := text + seq(padding, _ => 32);
    assert field[0] == text[0] && Deb.DecimalDigit(text[0]);
    assert Archive.TrimLeft(field) == field;
    assert Deb.DecimalDigit(text[|text| - 1]);
    TrimsAfter(text, padding);
  }

  // ----- Links ------------------------------------------------------------------------------

  lemma InBoth(a: string, b: string, c: char)
    ensures c in a + b <==> c in a || c in b
  {
  }

  lemma Capitals(c: char)
    ensures c in "ABCDEFGHIJKLMNOPQRSTUVWXYZ" <==> 'A' <= c <= 'Z'
  {
    if 'A' <= c <= 'Z' {
      assert "ABCDEFGHIJKLMNOPQRSTUVWXYZ"[c as int - 65] == c;
    }
  }

  lemma Smalls(c: char)
    ensures c in "abcdefghijklmnopqrstuvwxyz" <==> 'a' <= c <= 'z'
  {
    if 'a' <= c <= 'z' {
      assert "abcdefghijklmnopqrstuvwxyz"[c as int - 97] == c;
    }
  }

  lemma DigitsAndMarks(c: char)
    ensures c in "0123456789-_.~" <==> '0' <= c <= '9' || c == '-' || c == '_' || c == '.' || c == '~'
  {
    if '0' <= c <= '9' {
      assert "0123456789-_.~"[c as int - 48] == c;
    } else {
      assert "0123456789-_.~"[10..] == "-_.~";
    }
  }

  /** The characters that section 2.3 of RFC 3986 calls unreserved. */
  function Alphabet(): (text: string) {
    "ABCDEFGHIJKLMNOPQRSTUVWXYZ" + "abcdefghijklmnopqrstuvwxyz" + "0123456789-_.~"
  }

  /** The unreserved characters, and no other, stand for themselves. */
  lemma UnreservedExactly(c: char)
    ensures Link.Unreserved(c) <==> c in Alphabet()
  {
    Capitals(c);
    Smalls(c);
    DigitsAndMarks(c);
    hide *;
    UnreservedMeans(c);
    AlphabetMeans();
    var a, b, d := "ABCDEFGHIJKLMNOPQRSTUVWXYZ", "abcdefghijklmnopqrstuvwxyz", "0123456789-_.~";
    InBoth(a + b, d, c);
    InBoth(a, b, c);
  }

  lemma AlphabetMeans()
    ensures Alphabet() == "ABCDEFGHIJKLMNOPQRSTUVWXYZ" + "abcdefghijklmnopqrstuvwxyz" + "0123456789-_.~"
  {
  }

  lemma UnreservedMeans(c: char)
    ensures Link.Unreserved(c) <==>
      || 'A' <= c <= 'Z' || 'a' <= c <= 'z' || '0' <= c <= '9' || c == '-' || c == '_' || c == '.' || c == '~'
  {
  }

  /** Every other byte is a percent sign and its two upper-case hexadecimal digits. */
  lemma EscapesExactly(c: char)
    requires c as nat < 256
    ensures Link.EscapeChar(c) ==
      if c in Alphabet() then [c]
      else ['%', "0123456789ABCDEF"[c as nat / 16], "0123456789ABCDEF"[c as nat % 16]]
  {
    UnreservedExactly(c);
    UpperHexText(c as nat / 16);
    UpperHexText(c as nat % 16);
    hide Link.Unreserved, Link.UpperHex, Alphabet;
  }

  lemma UpperHexText(n: nat)
    requires n < 16
    ensures Link.UpperHex(n) == "0123456789ABCDEF"[n]
  {
  }

  /** The text a link consists of. */
  lemma LinkText(ip: string, token: string)
    requires Link.Credential(token)
    ensures |token| == 43
    ensures Link.New(ip, token) ==
      if Link.Canonical(ip) then Ok("http://" + ip + ":8443/s/" + token) else Err
  {
    hide Link.Canonical;
  }

  /** A byte of an address in decimal, without a leading zero. */
  lemma ShownByte(n: nat)
    requires n < 256
    ensures Ascii(Link.Show(n)) == Written(n)
    ensures n > 0 ==> Link.Show(n)[0] != '0'
  {
    ShowBytes(n);
    WrittenBytes(n);
    hide Link.Show, Written, Ascii;
    assert n > 0 ==> Ascii(Link.Show(n))[0] != 48;
    if Link.Show(n)[0] == '0' {
      FirstByte(Link.Show(n));
    }
  }

  lemma FirstByte(text: string)
    requires text != ""
    ensures Ascii(text) != []
    ensures text[0] as nat < 256 ==> Ascii(text)[0] == text[0] as nat
  {
  }

  /** The digits of a byte, as bytes. */
  function DigitBytes(n: nat): (bytes: Bytes)
    requires n < 256
    ensures bytes != [] && (n > 0 ==> bytes[0] != 48)
  {
    if n < 10 then [48 + n]
    else if n < 100 then [48 + n / 10, 48 + n % 10]
    else [48 + n / 100, 48 + n / 10 % 10, 48 + n % 10]
  }

  lemma ShowBytes(n: nat)
    requires n < 256
    ensures Ascii(Link.Show(n)) == DigitBytes(n)
  {
    var text := Link.Show(n);
    assert forall i :: 0 <= i < |text| ==> text[i] as nat == DigitBytes(n)[i];
    hide Link.Show, DigitBytes;
  }

  lemma WrittenBytes(n: nat)
    requires n < 256
    ensures Written(n) == DigitBytes(n)
  {
    hide Ascii;
    LastDigit(n);
    if n >= 10 {
      LastDigit(n / 10);
    }
    if n >= 100 {
      LastDigit(n / 100);
      assert n / 10 / 10 == n / 100;
    }
    hide Written;
  }

  lemma LastDigit(n: nat)
    ensures Written(n) == (if n < 10 then [] else Written(n / 10)) + [48 + n % 10]
  {
    DigitByte(n % 10);
    hide Ascii;
  }

  lemma DigitByte(d: nat)
    requires d < 10
    ensures Ascii("0123456789")[d] == 48 + d
  {
    var text := "0123456789";
    assert text[d] == '0' + d as char;
  }
}
