/**
 Structural acceptance of a 64-bit little-endian ELF file: program headers,
 section headers, names, and where the entry point lies.
 */
module Elf {
  import opened Wrappers
  import opened Octets

  datatype Program = Program(kind: nat, flags: nat, offset: nat, address: nat, fileSize: nat, memorySize: nat,
                             align: nat)

  datatype Section = Section(kind: nat, bytes: Bytes, flags: nat, address: nat, offset: nat)

  /** .text and .rodata */
  const TEXT: Bytes := [46, 116, 101, 120, 116]
  const RODATA: Bytes := [46, 114, 111, 100, 97, 116, 97]

  const LOAD: nat := 1
  const DYNAMIC: nat := 2
  const INTERPRETER: nat := 3
  const PROGBITS: nat := 1
  const STRTAB: nat := 3
  const DYNAMIC_SECTION: nat := 6
  const NOBITS: nat := 8

  function Field(bytes: Bytes, at: nat, size: nat): (n: nat)
    requires at + size <= |bytes|
  {
    LittleEndian(bytes[at..at + size])
  }

  function ProgramAt(table: Bytes, k: nat): (program: Program)
    requires 56 * (k + 1) <= |table|
  {
    var p := table[56 * k..56 * (k + 1)];
    Program(Field(p, 0, 4), Field(p, 4, 4), Field(p, 8, 8), Field(p, 16, 8), Field(p, 32, 8), Field(p, 40, 8),
            Field(p, 48, 8))
  }

  predicate PowerOfTwo(n: nat) { n == 1 || (n > 0 && n % 2 == 0 && PowerOfTwo(n / 2)) }

  predicate Executable(p: Program) { p.flags % 2 == 1 }

  // ----- Dynamic tables -------------------------------------------------------------

  predicate ForbiddenTag(tag: nat) { tag in {1, 0x7fff_fffd, 0x7fff_ffff, 0x6fff_fefb, 0x6fff_fefc} }

  function TagAt(bytes: Bytes, k: nat): (n: nat)
    requires 16 * (k + 1) <= |bytes|
  {
    Field(bytes, 16 * k, 8)
  }

  predicate ZeroEntry(bytes: Bytes, k: nat)
    requires 16 * (k + 1) <= |bytes|
  {
    forall i :: 16 * k <= i < 16 * k + 16 ==> bytes[i] == 0
  }

  /** No dependency, filter or audit entries; terminated, and nothing after the terminator. */
  predicate DynamicAllowed(bytes: Bytes) {
    && bytes != [] && |bytes| % 16 == 0
    && (forall k :: 0 <= k < |bytes| / 16 ==> !ForbiddenTag(TagAt(bytes, k)))
    && (exists k :: 0 <= k < |bytes| / 16 && TagAt(bytes, k) == 0)
    && (forall j, k :: 0 <= j < k < |bytes| / 16 && TagAt(bytes, j) == 0 ==> ZeroEntry(bytes, k))
  }

  method InspectDynamic(bytes: Bytes) returns (ok: bool)
    ensures ok == DynamicAllowed(bytes)
  {
    if bytes == [] || |bytes| % 16 != 0 {
      return false;
    }
    var terminated := false;
    var n := |bytes| / 16;
    hide Field, ForbiddenTag;
    for k := 0 to n
      invariant forall i :: 0 <= i < k ==> !ForbiddenTag(TagAt(bytes, i))
      invariant terminated <==> exists i :: 0 <= i < k && TagAt(bytes, i) == 0
      invariant forall i, j :: 0 <= i < j < k && TagAt(bytes, i) == 0 ==> ZeroEntry(bytes, j)
    {
      if ForbiddenTag(TagAt(bytes, k)) || (terminated && !ZeroEntry(bytes, k)) {
        return false;
      }
      if TagAt(bytes, k) == 0 {
        terminated := true;
      }
    }
    return terminated;
  }

  /** The tags by which a file would bring in other code: DT_NEEDED, DT_DEPAUDIT, DT_AUDIT, DT_AUXILIARY, DT_FILTER. */
  const NEEDED: nat := 1
  const DEPAUDIT: nat := 0x6fff_fefb
  const AUDIT: nat := 0x6fff_fefc
  const AUXILIARY: nat := 0x7fff_fffd
  const FILTER: nat := 0x7fff_ffff

  /** Entry k of the table is all zero after its tag too. */
  predicate Closed(bytes: Bytes, k: nat)
    requires 16 * (k + 1) <= |bytes|
  {
    forall i :: 16 * k <= i < 16 * (k + 1) ==> bytes[i] == 0
  }

  /** A table of whole entries, closed by zero entries alone, is refused exactly for one of those tags. */
  lemma RefusedForForeignCode(bytes: Bytes, n: nat)
    requires |bytes| % 16 == 0 && n < |bytes| / 16
    requires forall k :: 0 <= k < n ==> Field(bytes, 16 * k, 8) != 0
    requires Field(bytes, 16 * n, 8) == 0 && forall k :: n < k < |bytes| / 16 ==> Closed(bytes, k)
    ensures DynamicAllowed(bytes) <==>
      forall k :: 0 <= k < n ==> Field(bytes, 16 * k, 8) !in {NEEDED, DEPAUDIT, AUDIT, AUXILIARY, FILTER}
  {
    assert TagAt(bytes, n) == 0;
    forall k | n <= k < |bytes| / 16 ensures TagAt(bytes, k) == 0 {
      if k > n {
        assert Closed(bytes, k);
        ZeroField(bytes, 16 * k);
      }
    }
    forall k | 0 <= k < |bytes| / 16 ensures TagAt(bytes, k) == Field(bytes, 16 * k, 8) {
    }
    forall k | n < k < |bytes| / 16 ensures ZeroEntry(bytes, k) {
      assert Closed(bytes, k);
    }
    hide Field;
    if DynamicAllowed(bytes) {
      forall k | 0 <= k < n ensures Field(bytes, 16 * k, 8) !in {NEEDED, DEPAUDIT, AUDIT, AUXILIARY, FILTER} {
        assert !ForbiddenTag(TagAt(bytes, k));
      }
    }
  }

  lemma ZeroField(bytes: Bytes, at: nat)
    requires at + 8 <= |bytes| && forall i :: at <= i < at + 8 ==> bytes[i] == 0
    ensures Field(bytes, at, 8) == 0
  {
    ZeroBytes(bytes[at..at + 8]);
  }

  lemma {:induction false} ZeroBytes(bytes: Bytes)
    requires forall i :: 0 <= i < |bytes| ==> bytes[i] == 0
    ensures LittleEndian(bytes) == 0
  {
    if bytes != [] {
      ZeroBytes(bytes[1..]);
    }
  }

  // ----- Program headers ------------------------------------------------------------

  predicate DataInFile(bytes: Bytes, p: Program) { p.offset + p.fileSize <= |bytes| }

  /** What one program header must satisfy on its own. */
  predicate ProgramAllowed(bytes: Bytes, p: Program) {
    && p.kind != INTERPRETER
    && DataInFile(bytes, p)
    && (p.kind == DYNAMIC ==> DynamicAllowed(bytes[p.offset..p.offset + p.fileSize]))
    && (p.kind == LOAD ==>
          && p.fileSize <= p.memorySize && p.address + p.memorySize < WORD
          && (p.align > 1 ==> PowerOfTwo(p.align) && p.address % p.align == p.offset % p.align))
  }

  method InspectProgram(bytes: Bytes, p: Program) returns (ok: bool)
    requires |bytes| < WORD
    ensures ok == ProgramAllowed(bytes, p)
  {
    hide DynamicAllowed;
    if p.kind == INTERPRETER {
      return false;
    }
    var data := Range(bytes, p.offset, p.fileSize);
    if data.Err? {
      return false;
    }
    if p.kind == DYNAMIC {
      var allowed := InspectDynamic(data.value);
      if !allowed {
        return false;
      }
    }
    if p.kind == LOAD {
      if p.fileSize > p.memorySize || p.address + p.memorySize >= WORD
         || (p.align > 1 && (!PowerOfTwo(p.align) || p.address % p.align != p.offset % p.align)) {
        return false;
      }
    }
    return true;
  }

  /** The entry point is backed by bytes of this segment. */
  predicate Covers(p: Program, entry: nat) {
    p.kind == LOAD && Executable(p) && p.address <= entry && entry - p.address < p.fileSize
  }

  /** Checks every program header, and whether one of them maps the entry point. */
  method InspectPrograms(bytes: Bytes, table: Bytes, count: nat, entry: nat) returns (ok: bool)
    requires |bytes| < WORD && |table| == 56 * count
    ensures ok <==>
      && (forall k :: 0 <= k < count ==> ProgramAllowed(bytes, ProgramAt(table, k)))
      && (exists k :: 0 <= k < count && Covers(ProgramAt(table, k), entry))
  {
    hide ProgramAllowed, Covers, ProgramAt;
    var covered := false;
    for k := 0 to count
      invariant forall i :: 0 <= i < k ==> ProgramAllowed(bytes, ProgramAt(table, i))
      invariant covered <==> exists i :: 0 <= i < k && Covers(ProgramAt(table, i), entry)
    {
      var p := ProgramAt(table, k);
      var allowed := InspectProgram(bytes, p);
      if !allowed {
        return false;
      }
      if Covers(p, entry) {
        covered := true;
      }
    }
    return covered;
  }

  // ----- Section headers ------------------------------------------------------------

  /** The zero-terminated name at a place in the name table. */
  function NameAt(names: Bytes, at: nat): (name: Result<Bytes>)
    ensures name.Ok? ==>
      && at + |name.value| < |names| && names[at + |name.value|] == 0
      && name.value == names[at..at + |name.value|] && 0 !in name.value
    decreases |names| - at
  {
    if at >= |names| then Err
    else if names[at] == 0 then Ok([])
    else
      var rest :- NameAt(names, at + 1);
      assert names[at..at + 1 + |rest|] == [names[at]] + names[at + 1..at + 1 + |rest|];
      Ok([names[at]] + rest)
  }

  /** One section header, read against the file and the name table. */
  function ReadSection(bytes: Bytes, names: Bytes, h: Bytes): (result: Result<(Bytes, Section)>)
    requires |h| == 64
  {
    var kind := Field(h, 4, 4);
    var name :- NameAt(names, Field(h, 0, 4));
    if name == [] then Err
    else
      var data :- if kind == NOBITS then Ok([]) else Range(bytes, Field(h, 24, 8), Field(h, 32, 8));
      Ok((name, Section(kind, data, Field(h, 8, 8), Field(h, 16, 8), Field(h, 24, 8))))
  }

  /** The section's bytes are where it says they are, and a dynamic section is an allowed table. */
  predicate SectionAllowed(bytes: Bytes, s: Section) {
    && (s.kind == NOBITS ==> s.bytes == [])
    && (s.kind != NOBITS ==> s.offset + |s.bytes| <= |bytes| && s.bytes == bytes[s.offset..s.offset + |s.bytes|])
    && (s.kind == DYNAMIC_SECTION ==> DynamicAllowed(s.bytes))
  }

  lemma ReadInFile(bytes: Bytes, names: Bytes, h: Bytes)
    requires |h| == 64 && ReadSection(bytes, names, h).Ok?
    ensures var s := ReadSection(bytes, names, h).value.1;
      && (s.kind == NOBITS ==> s.bytes == [])
      && (s.kind != NOBITS ==> s.offset + |s.bytes| <= |bytes| && s.bytes == bytes[s.offset..s.offset + |s.bytes|])
  {
    hide Field, NameAt;
  }

  function HeaderAt(table: Bytes, k: nat): (h: Bytes)
    requires 64 * (k + 1) <= |table|
    ensures |h| == 64
  {
    table[64 * k..64 * (k + 1)]
  }

  /** A header that reads, under a name that is text, and not a forbidden dynamic section. */
  predicate Readable(bytes: Bytes, names: Bytes, table: Bytes, utf8: Bytes -> bool, k: nat)
    requires 64 * (k + 1) <= |table|
  {
    var s := ReadSection(bytes, names, HeaderAt(table, k));
    s.Ok? && utf8(s.value.0) && (s.value.1.kind == DYNAMIC_SECTION ==> DynamicAllowed(s.value.1.bytes))
  }

  /** Section k has this name and this content. */
  predicate Reads(bytes: Bytes, names: Bytes, table: Bytes, k: nat, name: Bytes, s: Section)
    requires 64 * (k + 1) <= |table|
  {
    ReadSection(bytes, names, HeaderAt(table, k)) == Ok((name, s))
  }

  /** One of the sections before n has this name and this content; the first header is reserved. */
  predicate Contains(bytes: Bytes, names: Bytes, table: Bytes, n: nat, name: Bytes, s: Section)
    requires 64 * n <= |table|
  {
    exists k :: 1 <= k < n && Reads(bytes, names, table, k, name, s)
  }

  predicate SameName(bytes: Bytes, names: Bytes, table: Bytes, i: nat, k: nat)
    requires 64 * (i + 1) <= |table| && 64 * (k + 1) <= |table|
  {
    var s, t := ReadSection(bytes, names, HeaderAt(table, i)), ReadSection(bytes, names, HeaderAt(table, k));
    s.Ok? && t.Ok? && s.value.0 == t.value.0
  }

  /** Every section before n is readable and no two share a name. */
  predicate SectionsAllowed(bytes: Bytes, names: Bytes, table: Bytes, n: nat, utf8: Bytes -> bool)
    requires 64 * n <= |table|
  {
    && (forall k :: 1 <= k < n ==> Readable(bytes, names, table, utf8, k))
    && (forall i, k :: 1 <= i < k < n ==> !SameName(bytes, names, table, i, k))
  }

  predicate Maps(found: map<Bytes, Section>, name: Bytes, s: Section) { name in found && found[name] == s }

  /** The map holds exactly the sections before n. */
  ghost predicate Collected(bytes: Bytes, names: Bytes, table: Bytes, n: nat, found: map<Bytes, Section>)
    requires 64 * n <= |table|
  {
    forall name, s :: Maps(found, name, s) <==> Contains(bytes, names, table, n, name, s)
  }

  lemma NothingCollected(bytes: Bytes, names: Bytes, table: Bytes)
    requires 64 <= |table|
    ensures Collected(bytes, names, table, 1, map[])
  {
  }

  /** One more section under a new name. */
  lemma CollectedNext(bytes: Bytes, names: Bytes, table: Bytes, n: nat, found: map<Bytes, Section>, name: Bytes,
                      section: Section)
    requires 1 <= n && 64 * (n + 1) <= |table| && Collected(bytes, names, table, n, found)
    requires Reads(bytes, names, table, n, name, section) && name !in found
    ensures Collected(bytes, names, table, n + 1, found[name := section])
  {
    hide ReadSection, HeaderAt;
    var next := found[name := section];
    forall x, s ensures Maps(next, x, s) <==> Contains(bytes, names, table, n + 1, x, s) {
      assert x != name ==> Maps(next, x, s) == Maps(found, x, s);
      if Contains(bytes, names, table, n, x, s) {
        assert Maps(found, x, s);
        var k :| 1 <= k < n && Reads(bytes, names, table, k, x, s);
        assert Contains(bytes, names, table, n + 1, x, s);
      }
      if Contains(bytes, names, table, n + 1, x, s) {
        var k :| 1 <= k < n + 1 && Reads(bytes, names, table, k, x, s);
        assert k < n ==> Contains(bytes, names, table, n, x, s);
      }
    }
  }

  /** A name is taken exactly when an earlier section has it. */
  lemma TakenMeansShared(bytes: Bytes, names: Bytes, table: Bytes, n: nat, found: map<Bytes, Section>, name: Bytes,
                         section: Section)
    requires 1 <= n && 64 * (n + 1) <= |table| && Collected(bytes, names, table, n, found)
    requires Reads(bytes, names, table, n, name, section)
    ensures name in found <==> exists i :: 1 <= i < n && SameName(bytes, names, table, i, n)
  {
    hide ReadSection, HeaderAt;
    if name in found {
      assert Maps(found, name, found[name]);
      var i :| 1 <= i < n && Reads(bytes, names, table, i, name, found[name]);
      assert SameName(bytes, names, table, i, n);
    }
    if i :| 1 <= i < n && SameName(bytes, names, table, i, n) {
      var s := ReadSection(bytes, names, HeaderAt(table, i)).value.1;
      assert Reads(bytes, names, table, i, name, s);
      assert Contains(bytes, names, table, n, name, s);
      assert Maps(found, name, s);
    }
  }

  /** Fills the section map, exactly; a second section of the same name refuses the file. */
  method InspectSections(bytes: Bytes, table: Bytes, count: nat, names: Bytes, utf8: Bytes -> bool)
    returns (sections: Result<map<Bytes, Section>>)
    requires |bytes| < WORD && |table| == 64 * count && count >= 1
    ensures sections.Ok? <==> SectionsAllowed(bytes, names, table, count, utf8)
    ensures sections.Ok? ==>
      && |sections.value| == count - 1
      && Collected(bytes, names, table, count, sections.value)
  {
    hide ReadSection, HeaderAt, DynamicAllowed, Contains, Collected;
    var found: map<Bytes, Section> := map[];
    NothingCollected(bytes, names, table);
    for k := 1 to count
      invariant |found| == k - 1
      invariant Collected(bytes, names, table, k, found)
      invariant SectionsAllowed(bytes, names, table, k, utf8)
    {
      var s := ReadSection(bytes, names, HeaderAt(table, k));
      if s.Err? {
        assert !Readable(bytes, names, table, utf8, k);
        return Err;
      }
      var (name, section) := s.value;
      TakenMeansShared(bytes, names, table, k, found, name, section);
      if !utf8(name) || name in found {
        assert !utf8(name) ==> !Readable(bytes, names, table, utf8, k);
        return Err;
      }
      if section.kind == DYNAMIC_SECTION {
        var allowed := InspectDynamic(section.bytes);
        if !allowed {
          assert !Readable(bytes, names, table, utf8, k);
          return Err;
        }
      }
      CollectedNext(bytes, names, table, k, found, name, section);
      found := found[name := section];
    }
    return Ok(found);
  }

  // ----- The whole file -------------------------------------------------------------

  /** All of .text lies in this executable segment, at the same distance in file and memory. */
  predicate MapsText(p: Program, text: Section) {
    && p.kind == LOAD && Executable(p)
    && text.address >= p.address && text.offset >= p.offset
    && text.address - p.address == text.offset - p.offset
    && text.offset - p.offset + |text.bytes| <= p.fileSize
  }

  predicate CodeSection(s: Section) {
    s.kind == PROGBITS && s.bytes != [] && s.flags / 2 % 2 == 1 && s.flags / 4 % 2 == 1
  }

  predicate DataSection(s: Section) { s.kind == PROGBITS && s.bytes != [] && s.flags / 2 % 2 == 1 }

  predicate RequiredSections(sections: map<Bytes, Section>) {
    TEXT in sections && RODATA in sections && CodeSection(sections[TEXT]) && DataSection(sections[RODATA])
  }

  predicate FileHeader(bytes: Bytes, machine: nat) {
    && |bytes| >= 64
    && bytes[..7] == [0x7f, 69, 76, 70, 2, 1, 1] && bytes[7] in {0, 3}
    && (forall i :: 8 <= i < 16 ==> bytes[i] == 0)
    && Field(bytes, 16, 2) in {2, 3} && Field(bytes, 20, 4) == 1 && Field(bytes, 48, 4) == 0
    && Field(bytes, 52, 2) == 64 && Field(bytes, 54, 2) == 56 && Field(bytes, 58, 2) == 64
    && Field(bytes, 18, 2) == machine
    && Field(bytes, 24, 8) != 0
    && 0 < Field(bytes, 56, 2) <= 4096 && 2 <= Field(bytes, 60, 2) <= 4096
    && 0 < Field(bytes, 62, 2) < Field(bytes, 60, 2)
  }

  datatype Accepted = Accepted(entry: nat, programs: seq<Program>, sections: map<Bytes, Section>)

  function Programs(table: Bytes, count: nat): (ps: seq<Program>)
    requires |table| == 56 * count
    ensures |ps| == count && forall k :: 0 <= k < count ==> ps[k] == ProgramAt(table, k)
  {
    seq(count, k requires 0 <= k < count => ProgramAt(table, k))
  }

  method FindTextSegment(programs: seq<Program>, text: Section) returns (found: bool)
    ensures found <==> exists k :: 0 <= k < |programs| && MapsText(programs[k], text)
  {
    found := false;
    for k := 0 to |programs|
      invariant found <==> exists i :: 0 <= i < k && MapsText(programs[i], text)
    {
      if MapsText(programs[k], text) {
        found := true;
      }
    }
  }

  /** Where the file says its program headers, section headers and section names are. */
  datatype Tables = Tables(programs: Bytes, sections: Bytes, names: Bytes)

  function TablesOf(bytes: Bytes): (t: Result<Tables>)
    requires |bytes| >= 64 && 0 < Field(bytes, 62, 2) < Field(bytes, 60, 2)
    ensures t.Ok? ==>
      && |t.value.programs| == 56 * Field(bytes, 56, 2)
      && |t.value.sections| == 64 * Field(bytes, 60, 2)
  {
    var programs :- Range(bytes, Field(bytes, 32, 8), Field(bytes, 56, 2) * 56);
    var sections :- Range(bytes, Field(bytes, 40, 8), Field(bytes, 60, 2) * 64);
    if exists i :: 0 <= i < 64 && sections[i] != 0 then Err
    else
      var h := HeaderAt(sections, Field(bytes, 62, 2));
      if Field(h, 4, 4) != STRTAB then Err
      else
        var names :- Range(bytes, Field(h, 24, 8), Field(h, 32, 8));
        if names == [] || names[0] != 0 || names[|names| - 1] != 0 then Err
        else Ok(Tables(programs, sections, names))
  }

  predicate EntryInside(text: Section, entry: nat) { text.address <= entry < text.address + |text.bytes| }

  /** Some segment maps the whole of .text. */
  predicate Mapped(programs: Bytes, count: nat, text: Section)
    requires |programs| == 56 * count
  {
    exists k :: 0 <= k < count && MapsText(ProgramAt(programs, k), text)
  }

  predicate ProgramsAllowed(bytes: Bytes, programs: Bytes, count: nat, entry: nat)
    requires |programs| == 56 * count
  {
    && (forall k :: 0 <= k < count ==> ProgramAllowed(bytes, ProgramAt(programs, k)))
    && (exists k :: 0 <= k < count && Covers(ProgramAt(programs, k), entry))
  }

  /** The whole of what acceptance asks of a file, without reference to how it is checked. */
  ghost predicate Acceptable(bytes: Bytes, machine: nat, utf8: Bytes -> bool) {
    && FileHeader(bytes, machine)
    && TablesOf(bytes).Ok?
    && (var t, entry, phnum, shnum :=
          TablesOf(bytes).value, Field(bytes, 24, 8), Field(bytes, 56, 2), Field(bytes, 60, 2);
        && ProgramsAllowed(bytes, t.programs, phnum, entry)
        && SectionsAllowed(bytes, t.names, t.sections, shnum, utf8)
        && (exists text ::
              && Contains(bytes, t.names, t.sections, shnum, TEXT, text)
              && CodeSection(text) && EntryInside(text, entry) && Mapped(t.programs, phnum, text))
        && (exists data :: Contains(bytes, t.names, t.sections, shnum, RODATA, data) && DataSection(data)))
  }

  /**
   Everything an accepted file guarantees. The entry point lies in .text, and .text
   lies whole in an executable segment of the file.
   */
  predicate Sound(bytes: Bytes, a: Accepted) {
    && |bytes| >= 64 && a.entry == Field(bytes, 24, 8)
    && (forall k :: 0 <= k < |a.programs| ==> ProgramAllowed(bytes, a.programs[k]))
    && (exists k :: 0 <= k < |a.programs| && Covers(a.programs[k], a.entry))
    && (forall name :: name in a.sections ==> SectionAllowed(bytes, a.sections[name]))
    && RequiredSections(a.sections)
    && EntryInside(a.sections[TEXT], a.entry)
    && (exists k :: 0 <= k < |a.programs| && MapsText(a.programs[k], a.sections[TEXT]))
  }

  /** Sections collected from an allowed table have their bytes in the file. */
  lemma CollectedInFile(bytes: Bytes, names: Bytes, table: Bytes, n: nat, utf8: Bytes -> bool,
                        found: map<Bytes, Section>, name: Bytes)
    requires 64 * n <= |table| && SectionsAllowed(bytes, names, table, n, utf8)
    requires Collected(bytes, names, table, n, found) && name in found
    ensures SectionAllowed(bytes, found[name])
  {
    hide ReadSection, HeaderAt, DynamicAllowed;
    assert Maps(found, name, found[name]);
    var k :| 1 <= k < n && Reads(bytes, names, table, k, name, found[name]);
    assert Readable(bytes, names, table, utf8, k);
    ReadInFile(bytes, names, HeaderAt(table, k));
  }

  /** A name in the table is looked up as the one section that has it. */
  lemma LookedUp(bytes: Bytes, names: Bytes, table: Bytes, n: nat, found: map<Bytes, Section>, name: Bytes)
    requires 64 * n <= |table| && Collected(bytes, names, table, n, found)
    ensures name in found ==> Contains(bytes, names, table, n, name, found[name])
    ensures forall s :: Contains(bytes, names, table, n, name, s) ==> name in found && found[name] == s
  {
    hide Contains;
    assert name in found ==> Maps(found, name, found[name]);
    assert forall s :: Maps(found, name, s) ==> name in found && found[name] == s;
  }

  /** Accepts exactly the acceptable files, and returns what every one of them guarantees. */
  method Parse(bytes: Bytes, machine: nat, utf8: Bytes -> bool) returns (accepted: Result<Accepted>)
    requires |bytes| < WORD
    ensures accepted.Ok? <==> Acceptable(bytes, machine, utf8)
    ensures accepted.Ok? ==>
      && |accepted.value.programs| == Field(bytes, 56, 2)
      && |accepted.value.sections| == Field(bytes, 60, 2) - 1
      && Sound(bytes, accepted.value)
  {
    hide Field, DynamicAllowed, ProgramAt, Covers, MapsText, ProgramAllowed, SectionAllowed, NameAt, ReadSection,
         HeaderAt, TablesOf, Contains, Collected, SectionsAllowed, CodeSection, DataSection;
    if !FileHeader(bytes, machine) || TablesOf(bytes).Err? {
      return Err;
    }
    var entry, phnum, shnum := Field(bytes, 24, 8), Field(bytes, 56, 2), Field(bytes, 60, 2);
    var t := TablesOf(bytes).value;
    var ok := InspectPrograms(bytes, t.programs, phnum, entry);
    if !ok {
      return Err;
    }
    var sections := InspectSections(bytes, t.sections, shnum, t.names, utf8);
    if sections.Err? {
      return Err;
    }
    LookedUp(bytes, t.names, t.sections, shnum, sections.value, TEXT);
    LookedUp(bytes, t.names, t.sections, shnum, sections.value, RODATA);
    if !RequiredSections(sections.value) {
      return Err;
    }
    var text := sections.value[TEXT];
    if entry < text.address || entry - text.address >= |text.bytes| {
      return Err;
    }
    var ps := Programs(t.programs, phnum);
    ok := FindTextSegment(ps, text);
    if !ok {
      return Err;
    }
    forall name | name in sections.value ensures SectionAllowed(bytes, sections.value[name]) {
      CollectedInFile(bytes, t.names, t.sections, shnum, utf8, sections.value, name);
    }
    return Ok(Accepted(entry, ps, sections.value));
  }

  /**
   The entry point of an accepted file is one byte of the file, and its place
   computed through .text is its place computed through any segment mapping .text.
   */
  lemma EntryResolves(bytes: Bytes, a: Accepted, k: nat)
    requires Sound(bytes, a) && k < |a.programs| && MapsText(a.programs[k], a.sections[TEXT])
    ensures var text, p := a.sections[TEXT], a.programs[k];
      && p.address <= a.entry < p.address + p.fileSize
      && p.offset + (a.entry - p.address) == text.offset + (a.entry - text.address)
      && text.offset + (a.entry - text.address) < |bytes|
      && text.bytes[a.entry - text.address] == bytes[text.offset + (a.entry - text.address)]
      && p.offset + p.fileSize <= |bytes| && p.address + p.memorySize < WORD
  {
    hide DynamicAllowed, Field;
    assert ProgramAllowed(bytes, a.programs[k]);
    assert SectionAllowed(bytes, a.sections[TEXT]);
  }
}
