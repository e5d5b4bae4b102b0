/**
 The places of the ELF-64 fields, written down once more from the other side: a
 header, a program header and a section header as their fields laid end to end, and
 what the parser makes of them.
 */
module ElfLayout {
  import opened Wrappers
  import opened Octets
  import opened Elf

  // ----- Fields end to end --------------------------------------------------------------

  /** A number and how many bytes it takes. */
  datatype Part = Part(value: nat, size: nat)

  predicate Fits(p: Part) { p.value < Pow256(p.size) }

  function Laid(parts: seq<Part>): (bytes: Bytes) {
    if parts == [] then [] else ToLittleEndian(parts[0].value, parts[0].size) + Laid(parts[1..])
  }

  /** Where part k starts. */
  function Place(parts: seq<Part>, k: nat): (at: nat)
    requires k <= |parts|
  {
    if k == 0 then 0 else Place(parts, k - 1) + parts[k - 1].size
  }

  lemma {:induction false} PlaceShifts(parts: seq<Part>, k: nat)
    requires k < |parts|
    ensures Place(parts, k + 1) == parts[0].size + Place(parts[1..], k)
  {
    if k > 0 {
      PlaceShifts(parts, k - 1);
    }
  }

  lemma {:induction false} LaidReads(parts: seq<Part>, k: nat)
    requires k < |parts| && Fits(parts[k])
    ensures Place(parts, k) + parts[k].size <= |Laid(parts)|
    ensures Field(Laid(parts), Place(parts, k), parts[k].size) == parts[k].value
  {
    var first := ToLittleEndian(parts[0].value, parts[0].size);
    if k == 0 {
      LittleEndianInverse(parts[0].value, parts[0].size);
      assert Laid(parts)[..parts[0].size] == first;
    } else {
      LaidReads(parts[1..], k - 1);
      PlaceShifts(parts, k - 1);
      var at := Place(parts[1..], k - 1);
      assert Laid(parts)[parts[0].size + at..parts[0].size + at + parts[k].size]
          == Laid(parts[1..])[at..at + parts[k].size];
    }
  }

  /** The same, for parts laid somewhere in a longer text. */
  lemma FieldReads(bytes: Bytes, from: nat, parts: seq<Part>, k: nat)
    requires k < |parts| && Fits(parts[k]) && from + |Laid(parts)| <= |bytes|
    requires bytes[from..from + |Laid(parts)|] == Laid(parts)
    ensures from + Place(parts, k) + parts[k].size <= |bytes|
    ensures Field(bytes, from + Place(parts, k), parts[k].size) == parts[k].value
  {
    hide *;
    LaidReads(parts, k);
    FieldShifts(bytes, from, Laid(parts), Place(parts, k), parts[k].size);
  }

  lemma FieldShifts(bytes: Bytes, from: nat, inner: Bytes, at: nat, n: nat)
    requires from + |inner| <= |bytes| && bytes[from..from + |inner|] == inner && at + n <= |inner|
    ensures Field(bytes, from + at, n) == Field(inner, at, n)
  {
    hide LittleEndian;
    Slice(bytes, from, from + |inner|, at, at + n);
  }

  lemma Slice(bytes: Bytes, a: nat, b: nat, c: nat, d: nat)
    requires a <= b <= |bytes| && c <= d <= b - a
    ensures bytes[a..b][c..d] == bytes[a + c..a + d]
  {
    hide *;
    var inner := bytes[a..b];
    assert |inner| == b - a && |inner[c..d]| == d - c == |bytes[a + c..a + d]|;
    forall i | 0 <= i < d - c ensures inner[c..d][i] == bytes[a + c..a + d][i] {
      assert inner[c..d][i] == inner[c + i] && inner[c + i] == bytes[a + (c + i)];
    }
  }

  // ----- Program headers ----------------------------------------------------------------

  function ProgramParts(p: Program, physical: nat): (parts: seq<Part>) {
    [Part(p.kind, 4), Part(p.flags, 4), Part(p.offset, 8), Part(p.address, 8), Part(physical, 8),
     Part(p.fileSize, 8), Part(p.memorySize, 8), Part(p.align, 8)]
  }

  /** The places of the first eight parts, one after the other. */
  lemma Places(parts: seq<Part>)
    ensures Place(parts, 0) == 0
    ensures |parts| >= 1 ==> Place(parts, 1) == parts[0].size
    ensures |parts| >= 2 ==> Place(parts, 2) == Place(parts, 1) + parts[1].size
    ensures |parts| >= 3 ==> Place(parts, 3) == Place(parts, 2) + parts[2].size
    ensures |parts| >= 4 ==> Place(parts, 4) == Place(parts, 3) + parts[3].size
    ensures |parts| >= 5 ==> Place(parts, 5) == Place(parts, 4) + parts[4].size
    ensures |parts| >= 6 ==> Place(parts, 6) == Place(parts, 5) + parts[5].size
    ensures |parts| >= 7 ==> Place(parts, 7) == Place(parts, 6) + parts[6].size
  {
  }

  /** A program header is read back field by field. */
  lemma ProgramReads(table: Bytes, k: nat, p: Program, physical: nat)
    requires 56 * (k + 1) <= |table| && table[56 * k..56 * (k + 1)] == Laid(ProgramParts(p, physical))
    requires forall part :: part in ProgramParts(p, physical) ==> Fits(part)
    ensures ProgramAt(table, k) == p
  {
    var parts := ProgramParts(p, physical);
    var row := table[56 * k..56 * (k + 1)];
    Places(parts);
    hide Place, Field, Laid, Fits;
    LaidReads(parts, 0);
    LaidReads(parts, 1);
    LaidReads(parts, 2);
    LaidReads(parts, 3);
    LaidReads(parts, 5);
    LaidReads(parts, 6);
    LaidReads(parts, 7);
    assert row == Laid(parts);
  }

  // ----- Section headers ----------------------------------------------------------------

  datatype SectionHeader = SectionHeader(
    name: nat, kind: nat, flags: nat, address: nat, offset: nat, size: nat,
    link: nat, info: nat, align: nat, entrySize: nat)

  function SectionParts(s: SectionHeader): (parts: seq<Part>) {
    [Part(s.name, 4), Part(s.kind, 4), Part(s.flags, 8), Part(s.address, 8), Part(s.offset, 8), Part(s.size, 8),
     Part(s.link, 4), Part(s.info, 4), Part(s.align, 8), Part(s.entrySize, 8)]
  }

  predicate WrittenSection(h: Bytes, s: SectionHeader) {
    h == Laid(SectionParts(s)) && forall part :: part in SectionParts(s) ==> Fits(part)
  }

  lemma SectionFields(h: Bytes, s: SectionHeader)
    requires |h| == 64 && WrittenSection(h, s)
    ensures Field(h, 0, 4) == s.name && Field(h, 4, 4) == s.kind && Field(h, 8, 8) == s.flags
    ensures Field(h, 16, 8) == s.address && Field(h, 24, 8) == s.offset && Field(h, 32, 8) == s.size
  {
    var parts := SectionParts(s);
    Places(parts);
    hide Place, Field, Laid, Fits;
    LaidReads(parts, 0);
    LaidReads(parts, 1);
    LaidReads(parts, 2);
    LaidReads(parts, 3);
    LaidReads(parts, 4);
    LaidReads(parts, 5);
  }

  /**
   A section is read under the name at its place in the name table, with the bytes its header points
   to, or none if it takes no space in the file (SHT_NOBITS, 8); it is refused without a name, or
   beyond the end of the file.
   */
  lemma SectionReads(bytes: Bytes, names: Bytes, h: Bytes, s: SectionHeader)
    requires |bytes| < WORD && |h| == 64 && WrittenSection(h, s)
    ensures ReadSection(bytes, names, h) ==
      var name := NameAt(names, s.name);
      if name.Err? || name == Ok([]) || (s.kind != 8 && s.offset + s.size > |bytes|) then Err
      else Ok((name.value, Section(s.kind, if s.kind == 8 then [] else bytes[s.offset..s.offset + s.size],
                                   s.flags, s.address, s.offset)))
  {
    SectionFields(h, s);
    hide Field, NameAt, Laid, WrittenSection;
  }

  /** A name reaches from its place to the next zero, and there is one. */
  lemma {:induction false} NameReads(names: Bytes, at: nat)
    ensures NameAt(names, at).Ok? <==> exists k :: at <= k < |names| && names[k] == 0
    decreases if at < |names| then |names| - at else 0
  {
    if at < |names| && names[at] != 0 {
      NameReads(names, at + 1);
    }
  }

  // ----- The file header ----------------------------------------------------------------

  datatype Head = Head(
    ident: Bytes, kind: nat, machine: nat, version: nat, entry: nat, programs: nat, sections: nat, flags: nat,
    size: nat, programSize: nat, programCount: nat, sectionSize: nat, sectionCount: nat, namesIndex: nat)

  function HeadParts(h: Head): (parts: seq<Part>) {
    [Part(h.kind, 2), Part(h.machine, 2), Part(h.version, 4), Part(h.entry, 8), Part(h.programs, 8),
     Part(h.sections, 8), Part(h.flags, 4), Part(h.size, 2), Part(h.programSize, 2), Part(h.programCount, 2),
     Part(h.sectionSize, 2), Part(h.sectionCount, 2), Part(h.namesIndex, 2)]
  }

  /** The file begins with this header. */
  predicate Begins(bytes: Bytes, h: Head) {
    && |h.ident| == 16 && |bytes| >= 64 && |Laid(HeadParts(h))| == 48
    && bytes[..16] == h.ident && bytes[16..64] == Laid(HeadParts(h))
    && forall part :: part in HeadParts(h) ==> Fits(part)
  }

  lemma LatePlaces(parts: seq<Part>)
    requires |parts| == 13
    ensures Place(parts, 8) == Place(parts, 7) + parts[7].size
    ensures Place(parts, 9) == Place(parts, 8) + parts[8].size
    ensures Place(parts, 10) == Place(parts, 9) + parts[9].size
    ensures Place(parts, 11) == Place(parts, 10) + parts[10].size
    ensures Place(parts, 12) == Place(parts, 11) + parts[11].size
  {
  }

  lemma HeadFields(bytes: Bytes, h: Head)
    requires Begins(bytes, h)
    ensures Field(bytes, 16, 2) == h.kind && Field(bytes, 18, 2) == h.machine && Field(bytes, 20, 4) == h.version
    ensures Field(bytes, 24, 8) == h.entry && Field(bytes, 32, 8) == h.programs && Field(bytes, 40, 8) == h.sections
    ensures Field(bytes, 48, 4) == h.flags && Field(bytes, 52, 2) == h.size && Field(bytes, 54, 2) == h.programSize
    ensures Field(bytes, 56, 2) == h.programCount && Field(bytes, 58, 2) == h.sectionSize
    ensures Field(bytes, 60, 2) == h.sectionCount && Field(bytes, 62, 2) == h.namesIndex
  {
    var parts := HeadParts(h);
    Places(parts);
    LatePlaces(parts);
    hide Place, Field, Laid, Fits, Begins;
    HeadPart(bytes, h, 0);
    HeadPart(bytes, h, 1);
    HeadPart(bytes, h, 2);
    HeadPart(bytes, h, 3);
    HeadPart(bytes, h, 4);
    HeadPart(bytes, h, 5);
    HeadPart(bytes, h, 6);
    HeadPart(bytes, h, 7);
    HeadPart(bytes, h, 8);
    HeadPart(bytes, h, 9);
    HeadPart(bytes, h, 10);
    HeadPart(bytes, h, 11);
    HeadPart(bytes, h, 12);
  }

  lemma HeadPart(bytes: Bytes, h: Head, k: nat)
    requires Begins(bytes, h) && k < |HeadParts(h)|
    ensures var parts := HeadParts(h);
      && 16 + Place(parts, k) + parts[k].size <= |bytes|
      && Field(bytes, 16 + Place(parts, k), parts[k].size) == parts[k].value
  {
    var parts := HeadParts(h);
    hide Place, Field, Laid, Fits, HeadParts;
    assert parts[k] in parts;
    FieldReads(bytes, 16, parts, k);
  }

  /**
   A header is accepted exactly if it is that of a 64-bit little-endian file of version 1, for
   System V or GNU, an executable or shared object for the machine, without flags, with an entry
   point, headers of the standard sizes, and at least one program and two sections of which a later
   one than the first holds the names.
   */
  lemma HeaderExactly(bytes: Bytes, h: Head, machine: nat)
    requires Begins(bytes, h)
    ensures FileHeader(bytes, machine) <==>
      && h.ident[..7] == [127] + Ascii("ELF") + [2, 1, 1] && h.ident[7] in {0, 3}
      && h.ident[8..] == [0, 0, 0, 0, 0, 0, 0, 0]
      && h.kind in {2, 3} && h.machine == machine && h.version == 1 && h.flags == 0
      && h.size == 64 && h.programSize == 56 && h.sectionSize == 64
      && h.entry > 0 && 1 <= h.programCount <= 4096 && 2 <= h.sectionCount <= 4096
      && 1 <= h.namesIndex < h.sectionCount
  {
    HeadFields(bytes, h);
    Identifies(bytes, h);
    hide Field, Laid, Ascii;
  }

  lemma Identifies(bytes: Bytes, h: Head)
    requires Begins(bytes, h)
    ensures bytes[..7] == h.ident[..7] && bytes[7] == h.ident[7]
    ensures (forall i :: 8 <= i < 16 ==> bytes[i] == 0) <==> h.ident[8..] == [0, 0, 0, 0, 0, 0, 0, 0]
    ensures [127] + Ascii("ELF") + [2, 1, 1] == [0x7f, 69, 76, 70, 2, 1, 1]
  {
    hide Laid;
    assert forall i :: 0 <= i < 16 ==> bytes[i] == bytes[..16][i];
    assert bytes[..7] == bytes[..16][..7];
    if forall i :: 8 <= i < 16 ==> bytes[i] == 0 {
      assert forall i :: 0 <= i < 8 ==> h.ident[8..][i] == bytes[i + 8];
    }
    if h.ident[8..] == [0, 0, 0, 0, 0, 0, 0, 0] {
      assert forall i :: 8 <= i < 16 ==> bytes[i] == h.ident[8..][i - 8];
    }
  }

  /**
   The tables are where the header says, whole and inside the file, beginning with an empty section
   header; the names are in a string table (SHT_STRTAB, 3) that begins and ends with a zero.
   */
  lemma TablesExactly(bytes: Bytes, h: Head, names: SectionHeader)
    requires |bytes| < WORD && Begins(bytes, h) && 1 <= h.namesIndex < h.sectionCount
    requires h.sections + 64 * h.sectionCount <= |bytes|
    requires WrittenSection(bytes[h.sections + 64 * h.namesIndex..h.sections + 64 * (h.namesIndex + 1)], names)
    ensures Field(bytes, 62, 2) == h.namesIndex && Field(bytes, 60, 2) == h.sectionCount
    ensures TablesOf(bytes).Ok? <==>
      && h.programs + 56 * h.programCount <= |bytes|
      && (forall i :: h.sections <= i < h.sections + 64 ==> bytes[i] == 0)
      && names.kind == 3 && names.offset + names.size <= |bytes| && names.size > 0
      && bytes[names.offset] == 0 && bytes[names.offset + names.size - 1] == 0
    ensures TablesOf(bytes).Ok? ==>
      TablesOf(bytes).value ==
        Tables(bytes[h.programs..h.programs + 56 * h.programCount],
               bytes[h.sections..h.sections + 64 * h.sectionCount],
               bytes[names.offset..names.offset + names.size])
  {
    HeadFields(bytes, h);
    var from, n := h.sections, 64 * h.sectionCount;
    Slice(bytes, from, from + n, 64 * h.namesIndex, 64 * (h.namesIndex + 1));
    var sections := bytes[from..from + n];
    var row := bytes[from + 64 * h.namesIndex..from + 64 * (h.namesIndex + 1)];
    SectionFields(row, names);
    NullSection(bytes, from, n, sections);
    if names.offset + names.size <= |bytes| && names.size > 0 {
      Ends(bytes, names.offset, names.size);
    }
    TablesFrom(bytes, h, names, sections, row);
  }

  /** The tables, once the fields are known. */
  lemma TablesFrom(bytes: Bytes, h: Head, names: SectionHeader, sections: Bytes, row: Bytes)
    requires 64 <= |bytes| < WORD && 1 <= h.namesIndex < h.sectionCount
    requires Field(bytes, 32, 8) == h.programs && Field(bytes, 40, 8) == h.sections
    requires Field(bytes, 56, 2) == h.programCount
    requires Field(bytes, 60, 2) == h.sectionCount && Field(bytes, 62, 2) == h.namesIndex
    requires h.sections + 64 * h.sectionCount <= |bytes|
    requires sections == bytes[h.sections..h.sections + 64 * h.sectionCount]
    requires row == sections[64 * h.namesIndex..64 * (h.namesIndex + 1)] && |row| == 64
    requires Field(row, 4, 4) == names.kind && Field(row, 24, 8) == names.offset && Field(row, 32, 8) == names.size
    ensures TablesOf(bytes).Ok? <==>
      && h.programs + 56 * h.programCount <= |bytes|
      && (forall i :: 0 <= i < 64 ==> sections[i] == 0)
      && names.kind == 3 && names.offset + names.size <= |bytes|
      && var text := bytes[names.offset..names.offset + names.size];
         text != [] && text[0] == 0 && text[|text| - 1] == 0
    ensures TablesOf(bytes).Ok? ==>
      TablesOf(bytes).value ==
        Tables(bytes[h.programs..h.programs + 56 * h.programCount], sections,
               bytes[names.offset..names.offset + names.size])
  {
    hide Field;
    assert HeaderAt(sections, h.namesIndex) == row;
  }

  lemma NullSection(bytes: Bytes, from: nat, n: nat, sections: Bytes)
    requires from + n <= |bytes| && n >= 64 && sections == bytes[from..from + n]
    ensures (forall i :: 0 <= i < 64 ==> sections[i] == 0) <==> forall i :: from <= i < from + 64 ==> bytes[i] == 0
  {
    if forall i :: 0 <= i < 64 ==> sections[i] == 0 {
      assert forall i :: from <= i < from + 64 ==> bytes[i] == sections[i - from];
    }
    assert forall i :: 0 <= i < 64 ==> sections[i] == bytes[from + i];
  }

  lemma Ends(bytes: Bytes, from: nat, n: nat)
    requires from + n <= |bytes| && n > 0
    ensures bytes[from..from + n][0] == bytes[from] && bytes[from..from + n][n - 1] == bytes[from + n - 1]
  {
  }
}
