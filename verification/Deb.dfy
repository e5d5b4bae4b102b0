/**
 The two package walkers: the ar members of a .deb and the ustar members of its
 control archive. Decompression and the control fields are opaque.
 */
module Deb {
  import opened Wrappers
  import opened Octets
  import Archive

  const MAX_CONTROL_BYTES: nat := 0x10_0000

  /** "!<arch>" and a newline. */
  const AR: Bytes := [33, 60, 97, 114, 99, 104, 62, 10]
  const END: Bytes := [96, 10]

  const DEBIAN_BINARY: Bytes := [100, 101, 98, 105, 97, 110, 45, 98, 105, 110, 97, 114, 121]
  const CONTROL: Bytes := [99, 111, 110, 116, 114, 111, 108, 46, 116, 97, 114, 46, 103, 122]
  const DATA: Bytes := [100, 97, 116, 97, 46, 116, 97, 114, 46, 103, 122]
  const ORIGIN: Bytes := [95, 103, 112, 103, 111, 114, 105, 103, 105, 110]

  /** The members, in their only order. */
  function Name(k: nat): (bytes: Bytes) {
    if k == 0 then DEBIAN_BINARY else if k == 1 then CONTROL else if k == 2 then DATA else ORIGIN
  }

  /** "2.0" and a newline. */
  const FORMAT: Bytes := [50, 46, 48, 10]

  /** Decompressed chunks, and whether the input was used up; None if it is corrupt. */
  datatype Inflated = Inflated(chunks: seq<Bytes>, drained: bool)

  datatype Tools = Tools(inflate: Bytes -> Option<Inflated>, metadata: Bytes -> bool, utf8: Bytes -> bool)

  // ----- Numbers and names ----------------------------------------------------------

  predicate DecimalDigit(b: byte) { 48 <= b <= 57 }

  function DecimalValue(digits: Bytes): (n: nat)
    requires forall i :: 0 <= i < |digits| ==> DecimalDigit(digits[i])
  {
    if digits == [] then 0
    else
      assert DecimalDigit(digits[|digits| - 1]);
      10 * DecimalValue(digits[..|digits| - 1]) + (digits[|digits| - 1] as int - 48)
  }

  function Decimal(bytes: Bytes): (result: Result<nat>) {
    var value := Archive.TrimRight(Archive.TrimLeft(bytes));
    if value == [] || exists i :: 0 <= i < |value| && !DecimalDigit(value[i]) then Err
    else Ok(DecimalValue(value))
  }

  predicate Blank(b: byte) { b == 32 || 9 <= b <= 13 }

  function Stripped(bytes: Bytes): (stripped: Bytes) {
    if bytes != [] && Blank(bytes[0]) then Stripped(bytes[1..])
    else if bytes != [] && Blank(bytes[|bytes| - 1]) then Stripped(bytes[..|bytes| - 1])
    else bytes
  }

  // ----- The outer archive ------------------------------------------------------------

  datatype Member = Member(header: Bytes, body: Bytes)

  /** A member header that names its member and counts its body. */
  predicate Describes(m: Member, name: Bytes) {
    && |m.header| == 60 && m.header[58..] == END
    && Stripped(m.header[..16]) == name
    && Decimal(m.header[48..58]) == Ok(|m.body|)
    && m.body != []
  }

  predicate ContentAllowed(t: Tools, name: Bytes, body: Bytes) {
    && (name == DEBIAN_BINARY ==> body == FORMAT)
    && (name == CONTROL ==> ControlAccepted(t, body))
    && (name == ORIGIN ==> |body| <= 4096)
  }

  /** A member in its place: header, body, and a newline that keeps the next one even. */
  function Laid(m: Member): (bytes: Bytes) {
    m.header + m.body + (if |m.body| % 2 == 1 then [10] else [])
  }

  /** The magic, then the members. */
  function Assemble(ms: seq<Member>): (bytes: Bytes) {
    if ms == [] then AR else Assemble(ms[..|ms| - 1]) + Laid(ms[|ms| - 1])
  }

  /** The bytes are the magic and these members, with nothing between, before or after. */
  predicate Tiled(t: Tools, bytes: Bytes, ms: seq<Member>) {
    && |ms| <= 4
    && (forall k :: 0 <= k < |ms| ==> Describes(ms[k], Name(k)) && ContentAllowed(t, Name(k), ms[k].body))
    && Assemble(ms) <= bytes
  }

  predicate Package(t: Tools, bytes: Bytes, ms: seq<Member>) {
    Tiled(t, bytes, ms) && |ms| == 4 && bytes == Assemble(ms)
  }

  // ----- The control archive ----------------------------------------------------------

  const CONTROL_NAME: Bytes := [46, 47, 99, 111, 110, 116, 114, 111, 108]

  function ChecksumOf(h: Bytes): (n: nat)
    requires |h| == 512
  {
    Archive.HeaderSum(h)
  }

  /** The components after the first slash. */
  function Components(name: Bytes): (parts: seq<Bytes>) {
    if name == [] then [[]]
    else if name[0] == 47 then [[]] + Components(name[1..])
    else
      var rest := Components(name[1..]);
      if rest == [] then [[name[0]]] else [[name[0]] + rest[0]] + rest[1..]
  }

  predicate Root(name: Bytes) { name == [46] || name == [46, 47] }

  predicate PartsAllowed(parts: seq<Bytes>) {
    forall k :: 1 <= k < |parts| ==> parts[k] != [] && parts[k] != [46] && parts[k] != [46, 46]
  }

  predicate NameAllowed(name: Bytes) {
    Root(name)
    || (|name| >= 2 && name[..2] == [46, 47] && PartsAllowed(Components(name)))
  }

  predicate HeaderAllowed(utf8: Bytes -> bool, h: Bytes, size: nat)
    requires |h| == 512
  {
    var name := Archive.Text(h[..100]);
    && name.Ok? && utf8(name.value)
    && Archive.Octal(h[148..156]) == Ok(ChecksumOf(h))
    && (h[257..265] == Archive.USTAR || h[257..265] == [117, 115, 116, 97, 114, 32, 32, 0])
    && (forall i :: 345 <= i < 500 ==> h[i] == 0)
    && h[156] in {48, 0, 53}
    && NameAllowed(name.value)
    && Archive.Octal(h[124..136]) == Ok(size)
    && (h[156] == 53 ==> size == 0 && Root(name.value))
    && (name.value == CONTROL_NAME ==> h[156] != 53)
  }

  predicate AllZero(bytes: Bytes) { forall i :: 0 <= i < |bytes| ==> bytes[i] == 0 }

  datatype Entry = Entry(header: Bytes, body: Bytes)

  predicate EntryAllowed(utf8: Bytes -> bool, e: Entry) {
    |e.header| == 512 && !AllZero(e.header) && HeaderAllowed(utf8, e.header, |e.body|)
  }

  function Filler(n: nat): (bytes: Bytes) { Archive.Zeros((512 - n % 512) % 512) }

  function LaidEntry(e: Entry): (bytes: Bytes) { e.header + e.body + Filler(|e.body|) }

  function AssembleEntries(es: seq<Entry>): (bytes: Bytes) {
    if es == [] then [] else AssembleEntries(es[..|es| - 1]) + LaidEntry(es[|es| - 1])
  }

  predicate IsControl(e: Entry) {
    |e.header| == 512 && Archive.Text(e.header[..100]) == Ok(CONTROL_NAME)
  }

  function Controls(es: seq<Entry>): (parts: seq<Bytes>) {
    if es == [] then []
    else Controls(es[..|es| - 1]) + (if IsControl(es[|es| - 1]) then [es[|es| - 1].body] else [])
  }

  /** These entries start the archive, none of them the control file twice. */
  predicate TiledEntries(utf8: Bytes -> bool, tar: Bytes, es: seq<Entry>) {
    && (forall k :: 0 <= k < |es| ==> EntryAllowed(utf8, es[k]))
    && AssembleEntries(es) <= tar
    && |Controls(es)| <= 1
  }

  /** These entries and at least two blocks of zeros are the whole archive. */
  predicate ControlArchive(utf8: Bytes -> bool, tar: Bytes, es: seq<Entry>) {
    && TiledEntries(utf8, tar, es)
    && |tar| % 512 == 0 && |tar| - |AssembleEntries(es)| >= 1024
    && AllZero(tar[|AssembleEntries(es)|..])
    && |Controls(es)| == 1
  }

  /** The only possible control archive the bytes could be, decided entry by entry. */
  predicate ControlAccepted(t: Tools, compressed: Bytes) {
    && |compressed| <= MAX_CONTROL_BYTES
    && t.inflate(compressed).Some?
    && (var i := t.inflate(compressed).value;
        && i.drained && |Archive.Concat(i.chunks)| <= MAX_CONTROL_BYTES
        && Walk(t.utf8, Archive.Concat(i.chunks), 0, None).Ok?
        && t.metadata(Walk(t.utf8, Archive.Concat(i.chunks), 0, None).value))
  }

  /** The entry at an offset, if a whole acceptable one is there. */
  function EntryAt(utf8: Bytes -> bool, tar: Bytes, offset: nat): (e: Result<Entry>)
    ensures e.Ok? ==> |LaidEntry(e.value)| >= 512 && offset + |LaidEntry(e.value)| <= |tar|
  {
    if offset + 512 > |tar| then Err
    else
      var h := tar[offset..offset + 512];
      var size :- Archive.Octal(h[124..136]);
      var end := offset + 512 + size;
      if end > |tar| || AllZero(h) || !HeaderAllowed(utf8, h, size) then Err
      else
        var e := Entry(h, tar[offset + 512..end]);
        if end + |Filler(size)| > |tar| || tar[end..end + |Filler(size)|] != Filler(size) then Err else Ok(e)
  }

  function Walk(utf8: Bytes -> bool, tar: Bytes, offset: nat, control: Option<Bytes>): (result: Result<Bytes>)
    decreases |tar| - offset
  {
    if offset + 512 > |tar| then Err
    else if AllZero(tar[offset..offset + 512]) then
      if |tar| - offset < 1024 || |tar| % 512 != 0 || !AllZero(tar[offset..]) || control.None? then Err
      else Ok(control.value)
    else
      var e :- EntryAt(utf8, tar, offset);
      if IsControl(e) && control.Some? then Err
      else Walk(utf8, tar, offset + |LaidEntry(e)|, if IsControl(e) then Some(e.body) else control)
  }

  /** The whole control walk, in the loop the program runs. */
  method InspectControl(t: Tools, compressed: Bytes) returns (ok: bool)
    requires Chunked(t, compressed)
    ensures ok == ControlAccepted(t, compressed)
  {
    hide EntryAt, Archive.Concat;
    if |compressed| > MAX_CONTROL_BYTES || t.inflate(compressed).None? {
      return false;
    }
    var inflated := t.inflate(compressed).value;
    var collected := Collect(inflated.chunks);
    if collected.Err? || !inflated.drained {
      return false;
    }
    var tar := collected.value;
    var offset: nat, control: Option<Bytes> := 0, None;
    while true
      invariant Walk(t.utf8, tar, 0, None) == Walk(t.utf8, tar, offset, control)
      decreases |tar| - offset
    {
      if offset + 512 > |tar| {
        return false;
      }
      if AllZero(tar[offset..offset + 512]) {
        if |tar| - offset < 1024 || |tar| % 512 != 0 || !AllZero(tar[offset..]) || control.None? {
          return false;
        }
        return t.metadata(control.value);
      }
      var e := EntryAt(t.utf8, tar, offset);
      if e.Err? || (IsControl(e.value) && control.Some?) {
        return false;
      }
      if IsControl(e.value) {
        control := Some(e.value.body);
      }
      offset := offset + |LaidEntry(e.value)|;
    }
  }

  /** Decompressed output under the bound, whatever the chunk sizes. */
  method Collect(chunks: seq<Bytes>) returns (tar: Result<Bytes>)
    requires forall i :: 0 <= i < |chunks| ==> 0 < |chunks[i]| <= 8192
    ensures tar == if |Archive.Concat(chunks)| <= MAX_CONTROL_BYTES then Ok(Archive.Concat(chunks)) else Err
  {
    var body: Bytes := [];
    var i := 0;
    while i < |chunks|
      invariant 0 <= i <= |chunks| && body == Archive.Concat(chunks[..i]) && |body| <= MAX_CONTROL_BYTES
    {
      assert chunks[..i + 1][..i] == chunks[..i];
      if |chunks[i]| > MAX_CONTROL_BYTES - |body| {
        Archive.ConcatGrows(chunks, i + 1);
        return Err;
      }
      body := body + chunks[i];
      i := i + 1;
    }
    assert chunks[..i] == chunks;
    return Ok(body);
  }

  // ----- The control archive is tiled exactly ---------------------------------------

  /** An entry is read at an offset exactly when it lies there. */
  lemma EntryIsThere(utf8: Bytes -> bool, tar: Bytes, offset: nat, e: Entry)
    ensures EntryAt(utf8, tar, offset) == Ok(e) <==>
      && EntryAllowed(utf8, e) && offset + |LaidEntry(e)| <= |tar|
      && tar[offset..offset + |LaidEntry(e)|] == LaidEntry(e)
  {
    hide HeaderAllowed, Archive.Octal, AllZero;
    if EntryAt(utf8, tar, offset) == Ok(e) {
      ThreeParts(tar, offset, 512, |e.body|, |Filler(|e.body|)|);
      LaidParts(e);
    }
    if EntryAllowed(utf8, e) && offset + |LaidEntry(e)| <= |tar|
       && tar[offset..offset + |LaidEntry(e)|] == LaidEntry(e) {
      SizeIsBody(utf8, e);
      var n := |e.body|;
      var all := 512 + n + |Filler(n)|;
      SliceOfSlice(tar, offset, all, 0, 512);
      SliceOfSlice(tar, offset, all, 512, 512 + n);
      SliceOfSlice(tar, offset, all, 512 + n, all);
      LaidParts(e);
    }
  }

  lemma SliceOfSlice(tar: Bytes, offset: nat, n: nat, a: nat, b: nat)
    requires offset + n <= |tar| && a <= b <= n
    ensures tar[offset..offset + n][a..b] == tar[offset + a..offset + b]
  {
    var x, y := tar[offset..offset + n][a..b], tar[offset + a..offset + b];
    assert |x| == |y| && forall i :: 0 <= i < |x| ==> x[i] == y[i];
  }

  lemma LaidParts(e: Entry)
    requires |e.header| == 512
    ensures var laid, n := LaidEntry(e), |e.body|;
      && |laid| == 512 + n + |Filler(n)|
      && laid[0..512] == e.header && laid[512..512 + n] == e.body && laid[512 + n..|laid|] == Filler(n)
  {
    var f := Filler(|e.body|);
    hide Filler;
    assert LaidEntry(e) == e.header + (e.body + f);
  }

  lemma ThreeParts(bytes: Bytes, o: nat, a: nat, b: nat, c: nat)
    requires o + a + b + c <= |bytes|
    ensures bytes[o..o + a + b + c]
            == bytes[o..o + a] + bytes[o + a..o + a + b] + bytes[o + a + b..o + a + b + c]
  {
    var x := bytes[o..o + a] + bytes[o + a..o + a + b] + bytes[o + a + b..o + a + b + c];
    var y := bytes[o..o + a + b + c];
    assert |x| == |y| && forall i :: 0 <= i < |x| ==> x[i] == y[i];
  }

  lemma SizeIsBody(utf8: Bytes -> bool, e: Entry)
    requires EntryAllowed(utf8, e)
    ensures Archive.Octal(e.header[124..136]) == Ok(|e.body|)
  {
    hide Archive.Octal, AllZero;
  }

  function AsSeq(c: Option<Bytes>): (parts: seq<Bytes>) { if c.Some? then [c.value] else [] }

  lemma AppendEntry(es: seq<Entry>, e: Entry)
    ensures AssembleEntries(es + [e]) == AssembleEntries(es) + LaidEntry(e)
    ensures Controls(es + [e]) == Controls(es) + (if IsControl(e) then [e.body] else [])
  {
    assert (es + [e])[..|es|] == es && (es + [e])[|es|] == e;
    hide LaidEntry, IsControl;
  }

  lemma TakeMore(tar: Bytes, n: nat, part: Bytes)
    requires n + |part| <= |tar| && tar[n..n + |part|] == part
    ensures tar[..n] + part <= tar
  {
  }

  lemma ExtendEntries(utf8: Bytes -> bool, tar: Bytes, es: seq<Entry>, e: Entry, control: Option<Bytes>)
    requires TiledEntries(utf8, tar, es) && Controls(es) == AsSeq(control)
    requires EntryAt(utf8, tar, |AssembleEntries(es)|) == Ok(e) && !(IsControl(e) && control.Some?)
    ensures TiledEntries(utf8, tar, es + [e])
    ensures AssembleEntries(es + [e]) == AssembleEntries(es) + LaidEntry(e)
    ensures Controls(es + [e]) == AsSeq(if IsControl(e) then Some(e.body) else control)
  {
    hide EntryAllowed, EntryAt, LaidEntry, IsControl, AssembleEntries, Controls;
    EntryIsThere(utf8, tar, |AssembleEntries(es)|, e);
    AppendEntry(es, e);
    TakeMore(tar, |AssembleEntries(es)|, LaidEntry(e));
  }

  /** One turn of the walk, in either of its two ways. */
  lemma WalkTurns(utf8: Bytes -> bool, tar: Bytes, offset: nat, control: Option<Bytes>)
    requires Walk(utf8, tar, offset, control).Ok?
    ensures offset + 512 <= |tar|
    ensures AllZero(tar[offset..offset + 512]) ==>
      && |tar| - offset >= 1024 && |tar| % 512 == 0 && AllZero(tar[offset..])
      && control == Some(Walk(utf8, tar, offset, control).value)
    ensures !AllZero(tar[offset..offset + 512]) ==>
      && EntryAt(utf8, tar, offset).Ok?
      && (var e := EntryAt(utf8, tar, offset).value;
          && !(IsControl(e) && control.Some?)
          && Walk(utf8, tar, offset, control)
             == Walk(utf8, tar, offset + |LaidEntry(e)|, if IsControl(e) then Some(e.body) else control))
  {
    hide EntryAt, AllZero, IsControl;
  }

  lemma EndsHere(utf8: Bytes -> bool, tar: Bytes, es: seq<Entry>, control: Option<Bytes>)
    requires TiledEntries(utf8, tar, es) && Controls(es) == AsSeq(control) && control.Some?
    requires |tar| - |AssembleEntries(es)| >= 1024 && |tar| % 512 == 0 && AllZero(tar[|AssembleEntries(es)|..])
    ensures ControlArchive(utf8, tar, es)
  {
    hide TiledEntries, AllZero;
  }

  /** Whatever the walk accepts is tiled exactly, with one regular control file. */
  lemma {:induction false} WalkTiles(utf8: Bytes -> bool, tar: Bytes, es: seq<Entry>, control: Option<Bytes>)
    requires TiledEntries(utf8, tar, es) && Controls(es) == AsSeq(control)
    requires Walk(utf8, tar, |AssembleEntries(es)|, control).Ok?
    ensures exists full ::
      (ControlArchive(utf8, tar, full) && Controls(full) == [Walk(utf8, tar, |AssembleEntries(es)|, control).value])
    decreases |tar| - |AssembleEntries(es)|
  {
    hide EntryAt, TiledEntries, IsControl, Controls, AssembleEntries, AllZero, Walk, ControlArchive, LaidEntry;
    var offset := |AssembleEntries(es)|;
    WalkTurns(utf8, tar, offset, control);
    if AllZero(tar[offset..offset + 512]) {
      EndsHere(utf8, tar, es, control);
    } else {
      var e := EntryAt(utf8, tar, offset).value;
      ExtendEntries(utf8, tar, es, e, control);
      WalkTiles(utf8, tar, es + [e], if IsControl(e) then Some(e.body) else control);
    }
  }

  lemma PrefixTiled(utf8: Bytes -> bool, tar: Bytes, full: seq<Entry>, k: nat)
    requires TiledEntries(utf8, tar, full) && k < |full|
    ensures TiledEntries(utf8, tar, full[..k]) && AssembleEntries(full[..k + 1]) <= AssembleEntries(full)
    ensures AssembleEntries(full[..k + 1]) == AssembleEntries(full[..k]) + LaidEntry(full[k])
    ensures Controls(full[..k + 1]) ==
      Controls(full[..k]) + (if IsControl(full[k]) then [full[k].body] else [])
    ensures |Controls(full[..k + 1])| <= |Controls(full)|
    decreases |full| - k
  {
    assert full[..k + 1][..k] == full[..k];
    hide LaidEntry, EntryAllowed, IsControl;
    if k + 1 == |full| {
      assert full[..k + 1] == full;
    } else {
      PrefixTiled(utf8, tar, full, k + 1);
      assert full[..k + 2][..k + 1] == full[..k + 1];
    }
  }

  function Only(controls: seq<Bytes>): (found: Option<Bytes>) { if controls == [] then None else Some(controls[0]) }

  lemma WalkEnds(utf8: Bytes -> bool, tar: Bytes, full: seq<Entry>)
    requires ControlArchive(utf8, tar, full)
    ensures |AssembleEntries(full)| <= |tar|
    ensures Walk(utf8, tar, |AssembleEntries(full)|, Only(Controls(full))) == Ok(Controls(full)[0])
  {
    var offset := |AssembleEntries(full)|;
    assert tar[offset..offset + 512] == tar[offset..][..512];
    hide EntryAt, TiledEntries, Controls, AssembleEntries;
  }

  lemma WalkSteps(utf8: Bytes -> bool, tar: Bytes, offset: nat, e: Entry, control: Option<Bytes>)
    requires EntryAllowed(utf8, e) && offset + |LaidEntry(e)| <= |tar|
    requires tar[offset..offset + |LaidEntry(e)|] == LaidEntry(e)
    requires !(IsControl(e) && control.Some?)
    ensures Walk(utf8, tar, offset, control)
            == Walk(utf8, tar, offset + |LaidEntry(e)|, if IsControl(e) then Some(e.body) else control)
  {
    hide EntryAt, EntryAllowed, LaidEntry, IsControl, AllZero;
    EntryIsThere(utf8, tar, offset, e);
    LaidHead(utf8, tar, offset, e);
  }

  lemma LaidHead(utf8: Bytes -> bool, tar: Bytes, offset: nat, e: Entry)
    requires EntryAllowed(utf8, e) && offset + |LaidEntry(e)| <= |tar|
    requires tar[offset..offset + |LaidEntry(e)|] == LaidEntry(e)
    ensures offset + 512 <= |tar| && !AllZero(tar[offset..offset + 512])
  {
    hide HeaderAllowed, AllZero;
    assert tar[offset..offset + 512] == tar[offset..offset + |LaidEntry(e)|][..512] == e.header;
  }

  /** Where the walk stands after the first k of these entries, and with which control file. */
  function Offset(full: seq<Entry>, k: nat): (n: nat)
    requires k <= |full|
  {
    |AssembleEntries(full[..k])|
  }

  function Seen(full: seq<Entry>, k: nat): (found: Option<Bytes>)
    requires k <= |full|
  {
    Only(Controls(full[..k]))
  }

  lemma StepLies(utf8: Bytes -> bool, tar: Bytes, full: seq<Entry>, k: nat)
    requires TiledEntries(utf8, tar, full) && k < |full|
    ensures Offset(full, k) + |LaidEntry(full[k])| <= |tar|
    ensures tar[Offset(full, k)..Offset(full, k) + |LaidEntry(full[k])|] == LaidEntry(full[k])
    ensures Offset(full, k + 1) == Offset(full, k) + |LaidEntry(full[k])|
  {
    hide *;
    WithinControls(utf8, tar, full);
    PrefixTiled(utf8, tar, full, k);
    var a, b := AssembleEntries(full[..k]), AssembleEntries(full[..k + 1]);
    PrefixTrans(b, AssembleEntries(full), tar);
    LaidWithin(tar, a, LaidEntry(full[k]), b);
    OffsetIs(full, k);
    OffsetIs(full, k + 1);
  }

  lemma OffsetIs(full: seq<Entry>, k: nat)
    requires k <= |full|
    ensures Offset(full, k) == |AssembleEntries(full[..k])|
  {
  }

  lemma StepSeen(utf8: Bytes -> bool, tar: Bytes, full: seq<Entry>, k: nat)
    requires TiledEntries(utf8, tar, full) && k < |full|
    ensures !(IsControl(full[k]) && Seen(full, k).Some?)
    ensures Seen(full, k + 1) == if IsControl(full[k]) then Some(full[k].body) else Seen(full, k)
  {
    WithinControls(utf8, tar, full);
    PrefixTiled(utf8, tar, full, k);
    hide Controls, IsControl, AssembleEntries, LaidEntry, TiledEntries;
    FewerBefore(Controls(full[..k]), full[k]);
    OnlyStep(Controls(full[..k]), full[k]);
  }

  lemma TiledStep(utf8: Bytes -> bool, tar: Bytes, full: seq<Entry>, k: nat)
    requires TiledEntries(utf8, tar, full) && k < |full|
    ensures Walk(utf8, tar, Offset(full, k), Seen(full, k)) == Walk(utf8, tar, Offset(full, k + 1), Seen(full, k + 1))
  {
    hide *;
    AllowedAt(utf8, tar, full, k);
    StepLies(utf8, tar, full, k);
    StepSeen(utf8, tar, full, k);
    WalkSteps(utf8, tar, Offset(full, k), full[k], Seen(full, k));
  }

  lemma WithinControls(utf8: Bytes -> bool, tar: Bytes, full: seq<Entry>)
    requires TiledEntries(utf8, tar, full)
    ensures |Controls(full)| <= 1 && AssembleEntries(full) <= tar
  {
  }

  lemma FewerBefore(controls: seq<Bytes>, e: Entry)
    ensures |controls| <= |controls + (if IsControl(e) then [e.body] else [])|
  {
  }

  /** Whatever is tiled exactly the walk accepts, and returns its control file. */
  lemma {:induction false} TiledWalks(utf8: Bytes -> bool, tar: Bytes, full: seq<Entry>, k: nat)
    requires ControlArchive(utf8, tar, full) && k <= |full|
    ensures Walk(utf8, tar, Offset(full, k), Seen(full, k)) == Ok(Controls(full)[0])
    decreases |full| - k
  {
    if k == |full| {
      assert full[..k] == full;
      WalkEnds(utf8, tar, full);
    } else {
      OneControl(utf8, tar, full);
      hide *;
      TiledWalks(utf8, tar, full, k + 1);
      TiledStep(utf8, tar, full, k);
    }
  }

  lemma OneControl(utf8: Bytes -> bool, tar: Bytes, full: seq<Entry>)
    requires ControlArchive(utf8, tar, full)
    ensures TiledEntries(utf8, tar, full) && |Controls(full)| == 1 && AssembleEntries(full) <= tar
  {
  }

  lemma AllowedAt(utf8: Bytes -> bool, tar: Bytes, full: seq<Entry>, k: nat)
    requires TiledEntries(utf8, tar, full) && k < |full|
    ensures EntryAllowed(utf8, full[k])
  {
  }

  lemma OnlyStep(controls: seq<Bytes>, e: Entry)
    requires |controls| <= 1 && |controls + (if IsControl(e) then [e.body] else [])| <= 1
    ensures !(IsControl(e) && Only(controls).Some?)
    ensures Only(controls + (if IsControl(e) then [e.body] else [])) ==
      if IsControl(e) then Some(e.body) else Only(controls)
  {
  }

  lemma PrefixTrans(a: Bytes, b: Bytes, c: Bytes)
    requires a <= b && b <= c
    ensures a <= c
  {
  }

  lemma LaidWithin(tar: Bytes, a: Bytes, b: Bytes, whole: Bytes)
    requires whole == a + b && whole <= tar
    ensures |a| + |b| <= |tar| && tar[|a|..|a| + |b|] == b
  {
  }

  /** The control archive is accepted exactly when it is tiled by its entries and zeros. */
  lemma ControlWalkIsExact(utf8: Bytes -> bool, tar: Bytes)
    ensures Walk(utf8, tar, 0, None).Ok? <==> exists full :: ControlArchive(utf8, tar, full)
    ensures forall full :: ControlArchive(utf8, tar, full) ==> Walk(utf8, tar, 0, None) == Ok(Controls(full)[0])
  {
    if Walk(utf8, tar, 0, None).Ok? {
      WalkTiles(utf8, tar, [], None);
    }
    forall full | ControlArchive(utf8, tar, full) ensures Walk(utf8, tar, 0, None) == Ok(Controls(full)[0]) {
      assert full[..0] == [];
      TiledWalks(utf8, tar, full, 0);
    }
  }

  // ----- The outer walk ---------------------------------------------------------------

  /** The named member at an offset, if a whole acceptable one is there. */
  function MemberAt(t: Tools, bytes: Bytes, offset: nat, name: Bytes): (m: Result<Member>)
    ensures m.Ok? ==> offset + |Laid(m.value)| <= |bytes|
  {
    if offset + 60 > |bytes| then Err
    else
      var h := bytes[offset..offset + 60];
      if h[58..] != END || Stripped(h[..16]) != name then Err
      else
        var size :- Decimal(h[48..58]);
        var end := offset + 60 + size;
        if end > |bytes| || size == 0 then Err
        else
          var body := bytes[offset + 60..end];
          if !ContentAllowed(t, name, body) then Err
          else if size % 2 == 1 && (end >= |bytes| || bytes[end] != 10) then Err
          else Ok(Member(h, body))
  }

  predicate Outer(t: Tools, bytes: Bytes, offset: nat, k: nat)
    requires k <= 4
    decreases 4 - k
  {
    if k == 4 then offset == |bytes|
    else
      MemberAt(t, bytes, offset, Name(k)).Ok?
      && Outer(t, bytes, offset + |Laid(MemberAt(t, bytes, offset, Name(k)).value)|, k + 1)
  }

  predicate Chunked(t: Tools, compressed: Bytes) {
    t.inflate(compressed).Some? ==>
      forall i :: 0 <= i < |t.inflate(compressed).value.chunks| ==>
        0 < |t.inflate(compressed).value.chunks[i]| <= 8192
  }

  /** Reads one member and returns where the next one starts. */
  method NextMember(t: Tools, bytes: Bytes, offset: nat, name: Bytes) returns (next: Result<nat>)
    requires forall b :: Chunked(t, b)
    ensures next == match MemberAt(t, bytes, offset, name)
                    case Ok(m) => Ok(offset + |Laid(m)|)
                    case Err => Err
  {
    hide ControlAccepted, Stripped, Decimal;
    if offset + 60 > |bytes| {
      return Err;
    }
    var header := bytes[offset..offset + 60];
    if header[58..] != END || Stripped(header[..16]) != name {
      return Err;
    }
    var size := Decimal(header[48..58]);
    if size.Err? || offset + 60 + size.value > |bytes| || size.value == 0 {
      return Err;
    }
    var end := offset + 60 + size.value;
    var member := bytes[offset + 60..end];
    var accepted := true;
    if name == DEBIAN_BINARY {
      accepted := member == FORMAT;
    } else if name == CONTROL {
      assert Chunked(t, member);
      accepted := InspectControl(t, member);
    } else if name == ORIGIN {
      accepted := |member| <= 4096;
    }
    NamesDiffer();
    assert accepted == ContentAllowed(t, name, member);
    if !accepted || (size.value % 2 == 1 && (end >= |bytes| || bytes[end] != 10)) {
      return Err;
    }
    return Ok(end + size.value % 2);
  }

  lemma NamesDiffer()
    ensures DEBIAN_BINARY != CONTROL && DEBIAN_BINARY != ORIGIN && CONTROL != ORIGIN
  {
    assert |DEBIAN_BINARY| == 13 && |CONTROL| == 14 && |ORIGIN| == 10;
  }

  /** The four members in their order, walked with one moving offset. */
  method InspectDeb(t: Tools, bytes: Bytes) returns (ok: bool)
    requires forall b :: Chunked(t, b)
    ensures ok == (AR <= bytes && Outer(t, bytes, 8, 0))
  {
    hide MemberAt, Laid, Chunked;
    if !(AR <= bytes) {
      return false;
    }
    var offset: nat := 8;
    for k := 0 to 4
      invariant Outer(t, bytes, 8, 0) == Outer(t, bytes, offset, k)
    {
      var next := NextMember(t, bytes, offset, Name(k));
      if next.Err? {
        return false;
      }
      offset := next.value;
    }
    return offset == |bytes|;
  }

  // ----- The outer archive is tiled exactly -------------------------------------------

  /** A member is read at an offset exactly when it lies there. */
  lemma MemberIsThere(t: Tools, bytes: Bytes, offset: nat, name: Bytes, m: Member)
    ensures MemberAt(t, bytes, offset, name) == Ok(m) <==>
      && Describes(m, name) && ContentAllowed(t, name, m.body)
      && offset + |Laid(m)| <= |bytes| && bytes[offset..offset + |Laid(m)|] == Laid(m)
  {
    hide ContentAllowed, Stripped, Decimal;
    var n := |m.body|;
    if MemberAt(t, bytes, offset, name) == Ok(m) {
      ThreeParts(bytes, offset, 60, n, n % 2);
      MemberParts(m);
    }
    if Describes(m, name) && ContentAllowed(t, name, m.body)
       && offset + |Laid(m)| <= |bytes| && bytes[offset..offset + |Laid(m)|] == Laid(m) {
      var all := |Laid(m)|;
      SliceOfSlice(bytes, offset, all, 0, 60);
      SliceOfSlice(bytes, offset, all, 60, 60 + n);
      SliceOfSlice(bytes, offset, all, 60 + n, all);
      MemberParts(m);
    }
  }

  lemma MemberParts(m: Member)
    requires |m.header| == 60
    ensures var laid, n := Laid(m), |m.body|;
      && |laid| == 60 + n + n % 2
      && laid[0..60] == m.header && laid[60..60 + n] == m.body
      && laid[60 + n..|laid|] == (if n % 2 == 1 then [10] else [])
  {
    var pad: Bytes := if |m.body| % 2 == 1 then [10] else [];
    assert Laid(m) == m.header + (m.body + pad);
  }

  lemma AppendMember(ms: seq<Member>, m: Member)
    ensures Assemble(ms + [m]) == Assemble(ms) + Laid(m)
  {
    assert (ms + [m])[..|ms|] == ms && (ms + [m])[|ms|] == m;
    hide Laid;
  }

  lemma ExtendMembers(t: Tools, bytes: Bytes, ms: seq<Member>, m: Member)
    requires Tiled(t, bytes, ms) && |ms| < 4
    requires MemberAt(t, bytes, |Assemble(ms)|, Name(|ms|)) == Ok(m)
    ensures Tiled(t, bytes, ms + [m]) && |Assemble(ms + [m])| == |Assemble(ms)| + |Laid(m)|
  {
    hide Describes, ContentAllowed, MemberAt, Laid, Assemble;
    MemberIsThere(t, bytes, |Assemble(ms)|, Name(|ms|), m);
    AppendMember(ms, m);
    TakeMore(bytes, |Assemble(ms)|, Laid(m));
  }

  lemma TiledWithin(t: Tools, bytes: Bytes, ms: seq<Member>)
    requires Tiled(t, bytes, ms)
    ensures |ms| <= 4 && |Assemble(ms)| <= |bytes| && Assemble(ms) <= bytes
    ensures |ms| == 4 && |Assemble(ms)| == |bytes| ==> Package(t, bytes, ms)
  {
  }

  lemma OuterTurns(t: Tools, bytes: Bytes, offset: nat, k: nat)
    requires k <= 4
    ensures Outer(t, bytes, offset, k) ==
      if k == 4 then offset == |bytes|
      else
        MemberAt(t, bytes, offset, Name(k)).Ok?
        && Outer(t, bytes, offset + |Laid(MemberAt(t, bytes, offset, Name(k)).value)|, k + 1)
  {
    hide MemberAt, Laid;
  }

  /** Whatever the walk accepts is the magic and exactly four members. */
  lemma {:induction false} OuterTiles(t: Tools, bytes: Bytes, ms: seq<Member>)
    requires Tiled(t, bytes, ms) && |ms| <= 4 && Outer(t, bytes, |Assemble(ms)|, |ms|)
    ensures exists full :: Package(t, bytes, full)
    decreases 4 - |ms|
  {
    hide *;
    TiledWithin(t, bytes, ms);
    OuterTurns(t, bytes, |Assemble(ms)|, |ms|);
    if |ms| < 4 {
      var m := MemberAt(t, bytes, |Assemble(ms)|, Name(|ms|)).value;
      ExtendMembers(t, bytes, ms, m);
      OuterTiles(t, bytes, ms + [m]);
    }
  }

  lemma AssembleNext(full: seq<Member>, k: nat)
    requires k < |full|
    ensures Assemble(full[..k + 1]) == Assemble(full[..k]) + Laid(full[k])
  {
    assert full[..k + 1][..k] == full[..k];
    hide Laid;
  }

  lemma SumPrefix(a: Bytes, b: Bytes)
    ensures a <= a + b
  {
  }

  lemma MembersPrefix(full: seq<Member>, k: nat)
    requires k < |full|
    ensures Assemble(full[..k + 1]) == Assemble(full[..k]) + Laid(full[k])
    ensures Assemble(full[..k + 1]) <= Assemble(full)
    decreases |full| - k
  {
    hide *;
    AssembleNext(full, k);
    if k + 1 == |full| {
      assert full[..k + 1] == full;
    } else {
      MembersPrefix(full, k + 1);
      SumPrefix(Assemble(full[..k + 1]), Laid(full[k + 1]));
      PrefixTrans(Assemble(full[..k + 1]), Assemble(full[..k + 2]), Assemble(full));
    }
  }

  lemma PackageParts(t: Tools, bytes: Bytes, full: seq<Member>, k: nat)
    requires Package(t, bytes, full) && k < 4
    ensures |full| == 4 && bytes == Assemble(full)
    ensures Describes(full[k], Name(k)) && ContentAllowed(t, Name(k), full[k].body)
  {
    hide Describes, ContentAllowed;
  }

  lemma MemberLies(t: Tools, bytes: Bytes, full: seq<Member>, k: nat)
    requires Package(t, bytes, full) && k < 4
    ensures |full| == 4
    ensures MemberAt(t, bytes, |Assemble(full[..k])|, Name(k)) == Ok(full[k])
    ensures |Assemble(full[..k + 1])| == |Assemble(full[..k])| + |Laid(full[k])|
  {
    hide *;
    PackageParts(t, bytes, full, k);
    MembersPrefix(full, k);
    LaidWithin(bytes, Assemble(full[..k]), Laid(full[k]), Assemble(full[..k + 1]));
    MemberIsThere(t, bytes, |Assemble(full[..k])|, Name(k), full[k]);
  }

  lemma {:induction false} PackageWalks(t: Tools, bytes: Bytes, full: seq<Member>, k: nat)
    requires Package(t, bytes, full) && k <= |full| == 4
    ensures Outer(t, bytes, |Assemble(full[..k])|, k)
    decreases 4 - k
  {
    hide *;
    OuterTurns(t, bytes, |Assemble(full[..k])|, k);
    if k == 4 {
      assert full[..k] == full;
      PackageParts(t, bytes, full, 0);
    } else {
      MemberLies(t, bytes, full, k);
      PackageWalks(t, bytes, full, k + 1);
    }
  }

  lemma NoMembers(t: Tools, bytes: Bytes)
    ensures Assemble([]) == AR && |AR| == 8
    ensures AR <= bytes ==> Tiled(t, bytes, [])
  {
  }

  lemma PackageStarts(t: Tools, bytes: Bytes, full: seq<Member>)
    requires Package(t, bytes, full)
    ensures |full| == 4 && full[..0] == [] && AR <= bytes
  {
    NoMembers(t, bytes);
    MembersPrefix(full, 0);
    assert full[..0] == [];
  }

  /** A package is accepted exactly when it is the magic and four even-aligned members, end to end. */
  lemma OuterWalkIsExact(t: Tools, bytes: Bytes)
    ensures AR <= bytes && Outer(t, bytes, 8, 0) <==> exists full :: Package(t, bytes, full)
  {
    hide *;
    NoMembers(t, bytes);
    if AR <= bytes && Outer(t, bytes, 8, 0) {
      OuterTiles(t, bytes, []);
    }
    forall full | Package(t, bytes, full) ensures AR <= bytes && Outer(t, bytes, 8, 0) {
      PackageStarts(t, bytes, full);
      PackageWalks(t, bytes, full, 0);
    }
  }
}
