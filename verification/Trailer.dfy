/**
 The executable identity trailer: payload, identity document, its digest, its
 little-endian length, and a magic word at the very end. Hashing is an opaque
 streaming function and the document codec an opaque inverse pair.
 */
module Trailer {
  import opened Wrappers
  import opened Octets
  import opened Records

  const MAX_EXECUTABLE_BYTES: nat := 0x1000_0000
  const MAX_IDENTITY_BYTES: nat := 4096
  const REPOSITORY: string := "albertloky/SBXR"

  /** SBXR-IDENTITY-V1 */
  const MAGIC: Bytes := [83, 66, 88, 82, 45, 73, 68, 69, 78, 84, 73, 84, 89, 45, 86, 49]

  const TAIL_SIZE: nat := 32 + 8 + 16

  datatype Architecture = Amd64 | Arm64

  datatype Identity = Identity(schema: nat, repository: string, tag: string, commit: string, sequence: nat,
                               architecture: Architecture, payload: string)

  /** A hash that can be fed in pieces, and the identity codec with its tag rule. */
  datatype Tools<!S> = Tools(
    init: S, update: (S, Bytes) -> S, finish: S -> Bytes,
    encode: Identity -> Bytes, decode: Bytes -> Option<Identity>, tagAllowed: string -> bool)

  ghost predicate Lawful<S(!new)>(t: Tools<S>) {
    && (forall s, a, b {:trigger t.update(t.update(s, a), b)} :: t.update(t.update(s, a), b) == t.update(s, a + b))
    && (forall s :: |t.finish(s)| == 32)
    && (forall i :: t.decode(t.encode(i)) == Some(i) && t.encode(i) != [])
  }

  function Digest<S>(t: Tools<S>, bytes: Bytes): (digest: Bytes) { t.finish(t.update(t.init, bytes)) }

  function HexDigitOf(n: nat): (c: char)
    requires n < 16
  {
    "0123456789abcdef"[n]
  }

  function Hex(bytes: Bytes): (text: string) {
    if bytes == [] then "" else [HexDigitOf(bytes[0] / 16), HexDigitOf(bytes[0] % 16)] + Hex(bytes[1..])
  }

  predicate EndsWith(bytes: Bytes, suffix: Bytes) {
    |bytes| >= |suffix| && bytes[|bytes| - |suffix|..] == suffix
  }

  predicate Admissible<S>(t: Tools<S>, i: Identity) {
    && i.schema == 1 && i.repository == REPOSITORY
    && t.tagAllowed(i.tag) && LowerHex(i.commit, 40) && i.sequence > 0
    && LowerHex(i.payload, 64)
  }

  // ----- Stamping -----------------------------------------------------------------

  function IdentityOf<S>(t: Tools<S>, payload: Bytes, tag: string, commit: string, sequence: nat,
                         architecture: Architecture): (identity: Identity)
  {
    Identity(1, REPOSITORY, tag, commit, sequence, architecture, Hex(Digest(t, payload)))
  }

  function Assemble<S>(t: Tools<S>, payload: Bytes, document: Bytes): (bytes: Bytes) {
    payload + document + Digest(t, document) + ToLittleEndian(|document|, 8) + MAGIC
  }

  function Stamp<S>(t: Tools<S>, payload: Bytes, tag: string, commit: string, sequence: nat,
                    architecture: Architecture): (result: Result<Bytes>)
  {
    var i := IdentityOf(t, payload, tag, commit, sequence, architecture);
    var document := t.encode(i);
    if payload == [] || |payload| > MAX_EXECUTABLE_BYTES || EndsWith(payload, MAGIC)
       || !Admissible(t, i)
       || |document| > MAX_IDENTITY_BYTES || |payload| + |document| + TAIL_SIZE > MAX_EXECUTABLE_BYTES
    then Err
    else Ok(Assemble(t, payload, document))
  }

  // ----- Reading ------------------------------------------------------------------

  datatype Stamped<S> = Stamped(identity: Identity, payload: Bytes, hasher: S)

  function Decoded<S>(t: Tools<S>, document: Bytes): (result: Result<Identity>) {
    if document == [] || |document| > MAX_IDENTITY_BYTES then Err
    else match t.decode(document)
         case None => Err
         case Some(i) => Ok(i)
  }

  function Read<S>(t: Tools<S>, executable: Bytes): (result: Result<Stamped<S>>) {
    if |executable| <= TAIL_SIZE || |executable| > MAX_EXECUTABLE_BYTES || !EndsWith(executable, MAGIC) then Err
    else
      var lengthOffset := |executable| - 24;
      var length :- U64At(executable, lengthOffset);
      if length == 0 || length > MAX_IDENTITY_BYTES || length + TAIL_SIZE >= |executable| then Err
      else
        var offset := |executable| - TAIL_SIZE - length;
        var document := executable[offset..offset + length];
        if executable[offset + length..lengthOffset] != Digest(t, document) then Err
        else
          var identity :- Decoded(t, document);
          var payload := executable[..offset];
          if !Admissible(t, identity) || EndsWith(payload, MAGIC) then Err
          else
            var hasher := t.update(t.init, payload);
            if Hex(t.finish(hasher)) != identity.payload then Err
            else Ok(Stamped(identity, payload, hasher))
  }

  /** The installed record's digest covers the whole file, through the hasher the reader kept. */
  function VerifyInstalledPair<S>(t: Tools<S>, executable: Bytes, expected: Identity, sha: string)
    : (result: Result<Stamped<S>>)
  {
    var parsed :- Read(t, executable);
    var rest := executable[|parsed.payload|..];
    var i := parsed.identity;
    if i.repository != expected.repository || i.tag != expected.tag || i.commit != expected.commit
       || i.sequence != expected.sequence || i.architecture != expected.architecture
       || Hex(t.finish(t.update(parsed.hasher, rest))) != sha
    then Err
    else Ok(parsed)
  }

  // ----- Properties ---------------------------------------------------------------

  lemma {:induction false} HexIsLower(bytes: Bytes)
    ensures LowerHex(Hex(bytes), 2 * |bytes|)
  {
    if bytes != [] {
      HexIsLower(bytes[1..]);
      NibbleIsHex(bytes[0] / 16);
      NibbleIsHex(bytes[0] % 16);
    }
  }

  lemma NibbleIsHex(n: nat)
    requires n < 16
    ensures HexDigit(HexDigitOf(n))
  {
  }

  /** The file is this payload and this document, put together the only way there is. */
  predicate Splits<S>(t: Tools<S>, executable: Bytes, payload: Bytes, document: Bytes) {
    && payload != [] && 0 < |document| <= MAX_IDENTITY_BYTES
    && executable == Assemble(t, payload, document)
  }

  lemma DocumentLength(length: nat)
    requires length <= MAX_IDENTITY_BYTES
    ensures LittleEndian(ToLittleEndian(length, 8)) == length
  {
    assert Pow256(8) > MAX_IDENTITY_BYTES by {
      assert Pow256(2) == 65536;
      Pow256Grows(8);
    }
    LittleEndianInverse(length, 8);
  }

  lemma Pow256Grows(n: nat)
    requires n >= 2
    ensures Pow256(n) >= 65536
  {
    if n > 2 {
      Pow256Grows(n - 1);
    } else {
      assert Pow256(1) == 256 && Pow256(0) == 1;
    }
  }

  /** Where the parts of an assembled file lie. */
  lemma Parts<S(!new)>(t: Tools<S>, payload: Bytes, document: Bytes)
    requires Lawful(t)
    ensures var e, p, d := Assemble(t, payload, document), |payload|, |document|;
      && |e| == p + d + TAIL_SIZE
      && e[..p] == payload && e[p..p + d] == document && e[p + d..p + d + 32] == Digest(t, document)
      && e[p + d + 32..p + d + 40] == ToLittleEndian(d, 8) && e[p + d + 40..] == MAGIC
  {
    var e := Assemble(t, payload, document);
    var p, d := |payload|, |document|;
    var a, b, c := payload + document, Digest(t, document), ToLittleEndian(d, 8);
    assert e == a + b + c + MAGIC;
    assert a[..p] == payload && a[p..] == document;
    assert e[..p + d] == a && e[p + d..p + d + 32] == b && e[p + d + 32..p + d + 40] == c;
    assert e[..p] == e[..p + d][..p] && e[p..p + d] == e[..p + d][p..];
  }

  /** What the reader accepts, part by part. */
  predicate Acceptable<S>(t: Tools<S>, executable: Bytes, payload: Bytes, document: Bytes) {
    && |executable| <= MAX_EXECUTABLE_BYTES
    && Splits(t, executable, payload, document)
    && !EndsWith(payload, MAGIC)
    && t.decode(document).Some? && Admissible(t, t.decode(document).value)
    && t.decode(document).value.payload == Hex(Digest(t, payload))
  }

  lemma ReadsAssembled<S(!new)>(t: Tools<S>, executable: Bytes, payload: Bytes, document: Bytes)
    requires Lawful(t) && Acceptable(t, executable, payload, document)
    ensures Read(t, executable) ==
      Ok(Stamped(t.decode(document).value, payload, t.update(t.init, payload)))
  {
    Parts(t, payload, document);
    DocumentLength(|document|);
    hide Assemble, LittleEndian, ToLittleEndian, Hex, Admissible;
    var e, p, d := executable, |payload|, |document|;
    assert |e| - 24 == p + d + 32 && |e| - TAIL_SIZE - d == p;
    assert U64At(e, |e| - 24) == Ok(d);
    assert EndsWith(e, MAGIC);
  }

  /**
   A file is accepted exactly when it is assembled from an acceptable payload and
   document; both are then determined by the file.
   */
  lemma AcceptedSplitsUniquely<S(!new)>(t: Tools<S>, executable: Bytes, payload: Bytes, document: Bytes)
    requires Lawful(t)
    ensures Acceptable(t, executable, payload, document) ==>
      && Read(t, executable).Ok?
      && Read(t, executable).value.payload == payload
      && Read(t, executable).value.identity == t.decode(document).value
    ensures Read(t, executable).Ok? ==>
      exists d :: Acceptable(t, executable, Read(t, executable).value.payload, d)
    ensures forall p, d :: Acceptable(t, executable, payload, document) && Splits(t, executable, p, d) ==>
      p == payload && d == document
  {
    if Acceptable(t, executable, payload, document) {
      ReadsAssembled(t, executable, payload, document);
      forall p, d | Splits(t, executable, p, d) ensures p == payload && d == document {
        SplitsOnce(t, executable, payload, document, p, d);
      }
    }
    if Read(t, executable).Ok? {
      ReadIsAssembled(t, executable);
    }
  }

  lemma SplitsOnce<S(!new)>(t: Tools<S>, executable: Bytes, p: Bytes, d: Bytes, q: Bytes, f: Bytes)
    requires Lawful(t) && Splits(t, executable, p, d) && Splits(t, executable, q, f)
    ensures p == q && d == f
  {
    Parts(t, p, d);
    Parts(t, q, f);
    DocumentLength(|d|);
    DocumentLength(|f|);
    hide Assemble, LittleEndian, ToLittleEndian;
    var n := |executable|;
    assert ToLittleEndian(|d|, 8) == executable[n - 24..n - 16] == ToLittleEndian(|f|, 8);
  }

  /** The length the trailer records. */
  function Recorded(executable: Bytes): (n: nat)
    requires |executable| > TAIL_SIZE
  {
    LittleEndian(executable[|executable| - 24..|executable| - 16])
  }

  lemma ReadParts<S(!new)>(t: Tools<S>, executable: Bytes)
    requires Read(t, executable).Ok?
    ensures TAIL_SIZE < |executable| <= MAX_EXECUTABLE_BYTES
    ensures 0 < Recorded(executable) <= MAX_IDENTITY_BYTES && Recorded(executable) + TAIL_SIZE < |executable|
    ensures var n, d := |executable|, Recorded(executable);
      var offset := n - TAIL_SIZE - d;
      var payload, document := executable[..offset], executable[offset..offset + d];
      && Read(t, executable).value.payload == payload
      && executable[n - 16..] == MAGIC && executable[offset + d..n - 24] == Digest(t, document)
      && t.decode(document).Some? && Admissible(t, t.decode(document).value)
      && !EndsWith(payload, MAGIC)
      && t.decode(document).value.payload == Hex(Digest(t, payload))
  {
    hide LittleEndian, Hex, Admissible, LowerHex;
  }

  lemma Reassembles(e: Bytes, offset: nat, d: nat)
    requires d < |e| && offset + d + TAIL_SIZE == |e|
    ensures e == e[..offset] + e[offset..offset + d] + e[offset + d..|e| - 24] + e[|e| - 24..|e| - 16] + e[|e| - 16..]
  {
  }

  lemma ReadIsAssembled<S(!new)>(t: Tools<S>, executable: Bytes)
    requires Lawful(t) && Read(t, executable).Ok?
    ensures exists d :: Acceptable(t, executable, Read(t, executable).value.payload, d)
  {
    hide Read, Digest, Hex, Admissible, EndsWith, LittleEndian, ToLittleEndian;
    ReadParts(t, executable);
    var n, d := |executable|, Recorded(executable);
    var offset := n - TAIL_SIZE - d;
    ToLittleEndianInverse(executable[n - 24..n - 16]);
    Reassembles(executable, offset, d);
    assert Acceptable(t, executable, executable[..offset], executable[offset..offset + d]);
  }

  /** Reading what was stamped returns exactly what was stamped. */
  lemma StampReads<S(!new)>(t: Tools<S>, payload: Bytes, tag: string, commit: string, sequence: nat,
                            architecture: Architecture)
    requires Lawful(t) && Stamp(t, payload, tag, commit, sequence, architecture).Ok?
    ensures var e := Stamp(t, payload, tag, commit, sequence, architecture).value;
      && Read(t, e).Ok?
      && Read(t, e).value.payload == payload
      && Read(t, e).value.identity == IdentityOf(t, payload, tag, commit, sequence, architecture)
  {
    var document := t.encode(IdentityOf(t, payload, tag, commit, sequence, architecture));
    var e := Assemble(t, payload, document);
    Parts(t, payload, document);
    hide Assemble, Hex, Admissible;
    assert t.decode(document) == Some(IdentityOf(t, payload, tag, commit, sequence, architecture));
    assert Splits(t, e, payload, document);
    ReadsAssembled(t, e, payload, document);
  }

  /** Every payload of admissible size and end can be stamped, with any admissible release. */
  lemma StampSucceeds<S(!new)>(t: Tools<S>, payload: Bytes, tag: string, commit: string, sequence: nat,
                               architecture: Architecture)
    requires Lawful(t)
    ensures Stamp(t, payload, tag, commit, sequence, architecture).Ok? <==>
      var document := t.encode(IdentityOf(t, payload, tag, commit, sequence, architecture));
      && payload != [] && !EndsWith(payload, MAGIC)
      && t.tagAllowed(tag) && LowerHex(commit, 40) && sequence > 0
      && |document| <= MAX_IDENTITY_BYTES && |payload| + |document| + TAIL_SIZE <= MAX_EXECUTABLE_BYTES
  {
    HexIsLower(Digest(t, payload));
    hide Hex, Assemble;
  }

  /** A stamped file is not a payload again, and what a file carries is not itself stamped. */
  lemma NeverNested<S(!new)>(t: Tools<S>, payload: Bytes, tag: string, commit: string, sequence: nat,
                             architecture: Architecture)
    requires Lawful(t)
    ensures Read(t, payload).Ok? ==> Stamp(t, payload, tag, commit, sequence, architecture).Err?
    ensures Read(t, payload).Ok? ==> Read(t, Read(t, payload).value.payload).Err?
  {
    hide Hex, Assemble, Admissible;
  }

  /** The continued hash is the hash of the whole file. */
  lemma ContinuedHash<S(!new)>(t: Tools<S>, executable: Bytes, expected: Identity, sha: string)
    requires Lawful(t)
    ensures VerifyInstalledPair(t, executable, expected, sha).Ok? <==>
      && Read(t, executable).Ok?
      && Hex(Digest(t, executable)) == sha
      && Read(t, executable).value.identity.(schema := expected.schema, payload := expected.payload) == expected
  {
    if Read(t, executable).Ok? {
      ReadPayload(t, executable);
      var parsed := Read(t, executable).value;
      var rest := executable[|parsed.payload|..];
      hide Read, Hex;
      assert parsed.payload + rest == executable;
      assert t.update(t.update(t.init, parsed.payload), rest) == t.update(t.init, executable);
    }
  }

  lemma ReadPayload<S(!new)>(t: Tools<S>, executable: Bytes)
    requires Read(t, executable).Ok?
    ensures var parsed := Read(t, executable).value;
      parsed.payload <= executable && parsed.hasher == t.update(t.init, parsed.payload)
  {
    hide Hex, Admissible;
  }
}
