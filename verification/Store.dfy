/**
 The Ownership Record store as its source runs it: one publication is a sequence
 of system calls, any of which may fail or be the last before a power loss.
 */
module Store {
  import opened Wrappers
  import opened Octets
  import opened Durable

  datatype Publication = Unchanged | Uncertain
  datatype Kind = Unsafe | Conflict | Io | InvalidAuthority
  datatype Outcome = Done | Failed(kind: Kind, publication: Publication)

  /**
   The codec, the admitted transitions (`None` as a source is an absent record)
   and the records whose cleanup is complete.
   */
  datatype Authority<!R> = Authority(
    encode: R -> Option<Bytes>, decode: Bytes -> Option<R>,
    permits: (Option<R>, R) -> bool, cleaned: R -> bool)

  /** Encodings decode to their record, and no proper part of one decodes to another record. */
  ghost predicate Lawful<R(!new)>(a: Authority<R>) {
    && (forall r :: a.encode(r).Some? ==>
          a.decode(a.encode(r).value) == Some(r) && 0 < |a.encode(r).value| <= MAX_RECORD_BYTES)
    && (forall r, part :: a.encode(r).Some? && part <= a.encode(r).value && a.decode(part).Some? ==>
          a.decode(part) == Some(r))
  }

  /** The compare-and-set a publication asks for is admitted by the record rules. */
  predicate Admitted<R(==)>(a: Authority<R>, expected: Option<Bytes>, next: R) {
    && a.encode(next).Some?
    && (match expected
        case None => a.permits(None, next)
        case Some(bytes) =>
          && a.decode(bytes).Some?
          && a.encode(a.decode(bytes).value) == Some(bytes)
          && a.permits(a.decode(bytes), next))
  }

  predicate Readable(content: Option<Bytes>) { content.Some? ==> 0 < |content.value| <= MAX_RECORD_BYTES }

  /** Every state logged from position n on leaves only what the publication may leave. */
  ghost predicate ContainedSince(trace: seq<Fs>, n: nat, before: Fs, bytes: Bytes)
    requires WellFormed(before)
  {
    forall i :: n <= i < |trace| ==> Contained(before, bytes, trace[i])
  }

  ghost predicate Grown(before: seq<Fs>, after: seq<Fs>) {
    |before| <= |after| && after[..|before|] == before
  }

  class OwnershipStore<R(==,!new)> {
    const authority: Authority<R>
    /** Whether system calls may fail; a reliable run is one without faults. */
    const reliable: bool
    var fs: Fs
    /** Every file system state passed through, newest last. */
    ghost var trace: seq<Fs>

    ghost predicate Valid()
      reads this
    {
      Lawful(authority) && WellFormed(fs) && trace != [] && trace[|trace| - 1] == fs
    }

    constructor (a: Authority<R>, reliable: bool, fs: Fs)
      requires Lawful(a) && WellFormed(fs)
      ensures Valid() && authority == a && this.reliable == reliable && this.fs == fs && trace == [fs]
    {
      authority := a;
      this.reliable := reliable;
      this.fs := fs;
      trace := [fs];
    }

    method Fault() returns (fault: bool)
      ensures reliable ==> !fault
    {
      if reliable {
        return false;
      }
      fault := *;
    }

    method Become(next: Fs)
      requires Valid() && WellFormed(next)
      modifies this
      ensures Valid() && fs == next && trace == old(trace) + [next]
    {
      fs := next;
      trace := trace + [next];
    }

    /** One system call: it takes effect, or it fails and leaves open whether it did. */
    method Call(next: Fs) returns (fault: bool)
      requires Valid() && WellFormed(next)
      modifies this
      ensures Valid() && Grown(old(trace), trace)
      ensures (fs == next && trace == old(trace) + [next]) || (fault && fs == old(fs) && trace == old(trace))
      ensures reliable ==> !fault
    {
      fault := Fault();
      var took: bool := *;
      if !fault || took {
        Become(next);
      }
    }

    /** Writing the stage: a failed write leaves some part of the bytes. */
    method Write(bytes: Bytes) returns (fault: bool, ghost written: nat)
      requires Valid() && Last(fs).staged.Some?
      modifies this
      ensures Valid() && written <= |bytes|
      ensures fs == StageWritten(old(fs), bytes[..written]) && trace == old(trace) + [fs]
      ensures !fault ==> written == |bytes|
      ensures reliable ==> !fault
    {
      fault := Fault();
      var n := |bytes|;
      if fault {
        n :| 0 <= n <= |bytes|;
      }
      written := n;
      Become(StageWritten(fs, bytes[..n]));
    }

    /** A file that is empty or too long is unsafe, never decoded. */
    method ReadCurrent() returns (content: Result<Option<Bytes>>)
      requires Valid()
      ensures content.Ok? ==> content.value == Visible(fs).current && Readable(content.value)
      ensures reliable && Readable(Visible(fs).current) ==> content.Ok?
    {
      var fault := Fault();
      var seen := Visible(fs).current;
      content := if !fault && Readable(seen) then Ok(seen) else Err;
    }

    method ReadStaged() returns (content: Result<Option<Bytes>>)
      requires Valid()
      ensures content.Ok? ==> content.value == Visible(fs).staged && Readable(content.value)
      ensures reliable && Readable(Visible(fs).staged) ==> content.Ok?
    {
      var fault := Fault();
      var seen := Visible(fs).staged;
      content := if !fault && Readable(seen) then Ok(seen) else Err;
    }

    method ExpectCurrent(expected: Option<Bytes>) returns (o: Outcome)
      requires Valid()
      ensures o.Done? ==> Visible(fs).current == expected
      ensures o.Failed? ==> o.publication == Unchanged
      ensures reliable && Visible(fs).current == expected && Readable(expected) ==> o.Done?
    {
      var content := ReadCurrent();
      if content.Err? {
        return Failed(Io, Unchanged);
      }
      if content.value != expected {
        return Failed(Conflict, Unchanged);
      }
      return Done;
    }

    /**
     Establishes durability of the exact visible record. Success means a crash
     can only leave that record; no outcome changes what is visible.
     */
    method Synchronize(expected: Bytes) returns (o: Outcome)
      requires Valid()
      modifies this
      ensures Valid() && Grown(old(trace), trace)
      ensures Visible(fs) == old(Visible(fs))
      ensures forall i :: |old(trace)| <= i < |trace| ==>
        WellFormed(trace[i]) && forall disk :: Survives(trace[i], disk) ==> Survives(old(fs), disk)
      ensures forall disk :: Survives(fs, disk) ==> Survives(old(fs), disk)
      ensures o.Done? ==>
        && Visible(fs).current == Some(expected)
        && (forall content :: SurvivesCurrent(fs, content) ==> content == Some(expected))
        && |fs.dirs| == 1
      ensures o.Failed? ==> o.publication == Unchanged
      ensures reliable && Visible(fs).current == Some(expected) && Readable(Some(expected)) ==> o.Done?
      ensures old(Settled(fs)) ==> Settled(fs)
    {
      var content := ReadCurrent();
      if content.Err? {
        return Failed(Io, Unchanged);
      }
      if content.value != Some(expected) {
        return Failed(Conflict, Unchanged);
      }
      SyncedFileNarrows(fs, Last(fs).current.value);
      var fault := Call(SyncedFile(fs, Last(fs).current.value));
      if fault {
        return Failed(Io, Unchanged);
      }
      SyncedDirNarrows(fs);
      fault := Call(SyncedDir(fs));
      if fault {
        return Failed(Io, Unchanged);
      }
      o := ExpectCurrent(Some(expected));
    }

    /** Creates or reuses the stage and makes its bytes durable. */
    method Stage(ghost before: Fs, ghost expected: Option<Bytes>, bytes: Bytes) returns (o: Outcome)
      requires Valid() && WellFormed(before) && Contained(before, bytes, fs)
      requires Certain(fs, expected) && forall disk :: Survives(fs, disk) ==> Survives(before, disk)
      requires forall content :: SurvivesCurrent(fs, content) ==> SurvivesCurrent(before, content)
      requires 0 < |bytes| <= MAX_RECORD_BYTES
      modifies this
      ensures Valid() && Grown(old(trace), trace)
      ensures ContainedSince(trace, |old(trace)|, before, bytes) && Contained(before, bytes, fs)
      ensures Follows(before, expected, bytes, fs)
      ensures || Visible(fs) == old(Visible(fs))
              || (old(Visible(fs)).staged.None? && Visible(fs).staged.Some? && Visible(fs).staged.value <= bytes)
      ensures Visible(fs).current == old(Visible(fs)).current
      ensures o.Failed? ==> o.publication == Unchanged
      ensures o.Done? ==>
        && Last(fs).staged.Some? && fs.files[Last(fs).staged.value] == File(bytes, true)
        && (old(Visible(fs)).staged == None || old(Visible(fs)).staged == Some(bytes))
      ensures o == Failed(Conflict, Unchanged) ==> fs == old(fs)
      ensures old(Visible(fs)).staged.Some? && old(Visible(fs)).staged != Some(bytes) ==>
        o.Failed? && fs == old(fs)
      ensures reliable && (old(Visible(fs)).staged == None || old(Visible(fs)).staged == Some(bytes)) ==> o.Done?
    {
      hide Survives, SurvivesAt, ContentSurvives, SurvivesCurrent, MayLeave, Lawful;
      var staged := ReadStaged();
      if staged.Err? {
        return Failed(Io, Unchanged);
      }
      if staged.value.Some? {
        if staged.value != Some(bytes) {
          return Failed(Conflict, Unchanged);
        }
      } else {
        ghost var base := fs;
        CreateContained(before, bytes, base);
        CreateFollows(before, expected, bytes, base);
        var fault := Call(StageCreated(fs));
        if fault {
          return Failed(Io, Unchanged);
        }
        ghost var written;
        fault, written := Write(bytes);
        WriteContained(before, bytes, base, bytes[..written]);
        WriteFollows(before, expected, bytes, base, bytes[..written]);
        if fault {
          return Failed(Io, Unchanged);
        }
        assert bytes[..written] == bytes;
      }
      SyncedFileNarrows(fs, Last(fs).staged.value);
      NarrowerContained(before, bytes, fs, SyncedFile(fs, Last(fs).staged.value));
      NarrowerFollows(before, expected, bytes, fs, SyncedFile(fs, Last(fs).staged.value));
      var unsynced := Call(SyncedFile(fs, Last(fs).staged.value));
      return if unsynced then Failed(Io, Unchanged) else Done;
    }

    /** The last checks, the atomic rename, and its durability. */
    method Replace(ghost before: Fs, expected: Option<Bytes>, bytes: Bytes) returns (o: Outcome)
      requires Valid() && WellFormed(before) && Contained(before, bytes, fs) && Follows(before, expected, bytes, fs)
      requires Last(fs).staged.Some? && fs.files[Last(fs).staged.value] == File(bytes, true)
      requires 0 < |bytes| <= MAX_RECORD_BYTES
      modifies this
      ensures Valid() && Grown(old(trace), trace) && ContainedSince(trace, |old(trace)|, before, bytes)
      ensures Follows(before, expected, bytes, fs)
      ensures Visible(fs) == old(Visible(fs))
              || (old(Visible(fs)).current == expected && Visible(fs) == Disk(Some(bytes), None))
      ensures o.Done? ==>
        old(Visible(fs)).current == expected && Visible(fs) == Disk(Some(bytes), None) && Settled(fs)
      ensures o.Failed? && o.publication == Unchanged ==> fs == old(fs)
      ensures o.Failed? && o.publication == Uncertain ==>
        old(Visible(fs)).current == expected && Visible(fs).current in {expected, Some(bytes)}
      ensures reliable && old(Visible(fs)).current == expected && Readable(expected) ==> o.Done?
    {
      o := ExpectCurrent(expected);
      if o.Failed? {
        return;
      }
      var staged := ReadStaged();
      if staged != Ok(Some(bytes)) {
        return Failed(Conflict, Unchanged);
      }
      RenameContained(before, bytes, fs);
      RenameFollows(before, expected, bytes, fs);
      var fault := Call(Renamed(fs));
      if fault {
        return Failed(Io, Uncertain);
      }
      SyncedDirNarrows(fs);
      NarrowerContained(before, bytes, fs, SyncedDir(fs));
      NarrowerFollows(before, expected, bytes, fs, SyncedDir(fs));
      fault := Call(SyncedDir(fs));
      if fault {
        return Failed(Io, Uncertain);
      }
      o := ExpectCurrent(Some(bytes));
      if o.Failed? {
        o := Failed(o.kind, Uncertain);
      }
    }

    /**
     Publishes next over exactly expected. At every point on the way, a crash
     leaves some record that could already survive, possibly beside part of the
     stage, or the complete new record alone.
     */
    method Publish(expected: Option<Bytes>, next: R) returns (o: Outcome)
      requires Valid()
      modifies this
      ensures Valid() && Grown(old(trace), trace)
      ensures authority.encode(next).Some? ==>
        && ContainedSince(trace, |old(trace)|, old(fs), authority.encode(next).value)
        && Follows(old(fs), expected, authority.encode(next).value, fs)
        && Advances(old(Visible(fs)), expected, authority.encode(next).value, Visible(fs))
      ensures !Admitted(authority, expected, next) ==> o.Failed? && o.publication == Unchanged && fs == old(fs)
      ensures o.Done? ==>
        && old(Visible(fs)).current == expected
        && old(Visible(fs)).staged in {None, authority.encode(next)}
        && Admitted(authority, expected, next)
        && Visible(fs) == Disk(authority.encode(next), None) && Settled(fs)
      ensures o.Failed? && o.publication == Unchanged ==> Visible(fs).current == old(Visible(fs)).current
      ensures o.Failed? && o.publication == Uncertain ==>
        && old(Visible(fs)).current == expected
        && old(Visible(fs)).staged in {None, authority.encode(next)}
        && Visible(fs).current in {expected, authority.encode(next)}
      ensures (reliable && Admitted(authority, expected, next) && old(Visible(fs)).current == expected
               && Readable(expected) && old(Visible(fs)).staged in {None, authority.encode(next)}) ==> o.Done?
    {
      hide Survives, SurvivesAt, ContentSurvives, SurvivesCurrent, Contained, Follows, Certain;
      var encoded := authority.encode(next);
      if encoded.None? || !Admitted(authority, expected, next) {
        NothingNarrows(trace, fs, if encoded.Some? then encoded.value else [], expected);
        return Failed(InvalidAuthority, Unchanged);
      }
      o := Exchange(expected, encoded.value);
    }

    /** The compare-and-set itself, in terms of bytes. */
    method Exchange(expected: Option<Bytes>, bytes: Bytes) returns (o: Outcome)
      requires Valid() && 0 < |bytes| <= MAX_RECORD_BYTES
      modifies this
      ensures Valid() && Grown(old(trace), trace)
      ensures ContainedSince(trace, |old(trace)|, old(fs), bytes) && Follows(old(fs), expected, bytes, fs)
      ensures Advances(old(Visible(fs)), expected, bytes, Visible(fs))
      ensures o.Done? ==>
        && old(Visible(fs)).current == expected && old(Visible(fs)).staged in {None, Some(bytes)}
        && Visible(fs) == Disk(Some(bytes), None) && Settled(fs)
      ensures o.Failed? && o.publication == Unchanged ==> Visible(fs).current == old(Visible(fs)).current
      ensures o.Failed? && o.publication == Uncertain ==>
        && old(Visible(fs)).current == expected && old(Visible(fs)).staged in {None, Some(bytes)}
        && Visible(fs).current in {expected, Some(bytes)}
      ensures (reliable && old(Visible(fs)).current == expected && Readable(expected)
               && old(Visible(fs)).staged in {None, Some(bytes)}) ==> o.Done?
    {
      hide Survives, SurvivesAt, ContentSurvives, SurvivesCurrent, Contained, Follows, Certain, Lawful;
      ghost var before := fs;
      if expected.Some? {
        o := Synchronize(expected.value);
        NarrowedTrace(trace, |old(trace)|, before, bytes);
      } else {
        o := Done;
      }
      Narrowed(before, expected, bytes, fs);
      if o.Failed? {
        return;
      }
      CurrentsCarried(before, fs);
      o := ExpectCurrent(expected);
      if o.Failed? {
        return;
      }
      if expected.Some? {
        CertainBySurvivors(fs, expected);
      } else {
        CertainAbsence(fs);
      }
      o := Stage(before, expected, bytes);
      if o.Failed? {
        return;
      }
      o := Replace(before, expected, bytes);
    }

    /**
     Deletes the record of a completed cleanup. The record goes first, so a crash
     may leave its stage behind alone.
     */
    method RemoveCompletedCleanup(expected: Bytes) returns (o: Outcome)
      requires Valid()
      modifies this
      ensures Valid() && Grown(old(trace), trace)
      ensures forall i :: |old(trace)| <= i < |trace| ==> RemovalContained(old(fs), trace[i])
      ensures o.Done? ==>
        && old(Visible(fs)).current == Some(expected)
        && authority.decode(expected).Some? && authority.cleaned(authority.decode(expected).value)
        && Visible(fs) == Disk(None, None) && Settled(fs)
      ensures o.Failed? && o.publication == Unchanged ==> Visible(fs) == old(Visible(fs))
      ensures o.Failed? && o.publication == Uncertain ==> old(Visible(fs)).current == Some(expected)
      ensures o.Failed? && o.publication == Unchanged ==> OnlyNarrowed(old(fs), fs)
      ensures o.Done? || o.publication == Uncertain ==>
        old(Visible(fs)).staged in {None, Some(expected)} && OnlyRemoves(fs, expected)
      ensures (reliable && Admissible(expected) && old(Visible(fs)).current == Some(expected)
               && old(Visible(fs)).staged in {None, Some(expected)}) ==> o.Done?
    {
      if !Admissible(expected) {
        return Failed(Conflict, Unchanged);
      }
      o := Synchronize(expected);
      if o.Failed? {
        return;
      }
      var staged := ReadStaged();
      if staged.Err? || (staged.value.Some? && staged.value.value != expected) {
        return Failed(Conflict, Unchanged);
      }
      o := ExpectCurrent(Some(expected));
      if o.Failed? {
        return;
      }
      o := Unlink(old(fs), expected, staged.value.Some?);
    }

    method Unlink(ghost before: Fs, ghost expected: Bytes, staged: bool) returns (o: Outcome)
      requires Valid() && WellFormed(before)
      requires forall disk :: Survives(fs, disk) ==> Survives(before, disk)
      requires staged == Visible(fs).staged.Some? && OnlyRemoves(fs, expected)
      modifies this
      ensures Valid() && Grown(old(trace), trace)
      ensures forall i :: |old(trace)| <= i < |trace| ==> RemovalContained(before, trace[i])
      ensures OnlyRemoves(fs, expected)
      ensures o.Done? ==> Visible(fs) == Disk(None, None) && Settled(fs)
      ensures o.Failed? ==> o.publication == Uncertain
      ensures reliable ==> o.Done?
    {
      hide OnlyRemoves;
      UnlinkCurrentContained(before, fs);
      CurrentOnlyRemoves(fs, expected);
      var fault := Call(CurrentUnlinked(fs));
      if fault {
        return Failed(Io, Uncertain);
      }
      if staged {
        UnlinkStageContained(before, fs);
        StageOnlyRemoves(fs, expected);
        fault := Call(StageUnlinked(fs));
        if fault {
          return Failed(Io, Uncertain);
        }
      }
      SyncedDirNarrows(fs);
      NarrowerOnlyRemoves(fs, SyncedDir(fs), expected);
      fault := Call(SyncedDir(fs));
      if fault {
        return Failed(Io, Uncertain);
      }
      o := ExpectCurrent(None);
      if o.Failed? {
        o := Failed(o.kind, Uncertain);
      }
    }

    /** The exact canonical bytes of a record whose cleanup is complete. */
    predicate Admissible(expected: Bytes) {
      && authority.decode(expected).Some?
      && authority.cleaned(authority.decode(expected).value)
      && authority.encode(authority.decode(expected).value) == Some(expected)
    }

    /** An uncertain publication is settled by synchronizing whichever record is visible. */
    method Settle() returns (content: Option<Bytes>, o: Outcome)
      requires Valid()
      modifies this
      ensures Valid() && Visible(fs) == old(Visible(fs)) && content in {None, old(Visible(fs)).current}
      ensures reliable && Readable(old(Visible(fs)).current) && old(Visible(fs)).current.Some? ==> o.Done?
      ensures o.Done? ==>
        && content.Some?
        && forall survivor :: SurvivesCurrent(fs, survivor) ==> survivor == content
      ensures forall disk :: Survives(fs, disk) ==> Survives(old(fs), disk)
    {
      var seen := ReadCurrent();
      if seen.Err? || seen.value.None? {
        return None, Failed(Conflict, Unchanged);
      }
      content := seen.value;
      o := Synchronize(content.value);
    }
  }

  /** A crash leaves the completed cleanup or no record, never an earlier one. */
  ghost predicate OnlyRemoves(fs: Fs, expected: Bytes)
    requires WellFormed(fs)
  {
    forall content :: SurvivesCurrent(fs, content) ==> content in {None, Some(expected)}
  }

  /** A crash leaves nothing that it could not have left before. */
  ghost predicate OnlyNarrowed(before: Fs, fs: Fs)
    requires WellFormed(before) && WellFormed(fs)
  {
    forall disk :: Survives(fs, disk) ==> Survives(before, disk)
  }

  lemma CurrentOnlyRemoves(fs: Fs, expected: Bytes)
    requires WellFormed(fs) && OnlyRemoves(fs, expected)
    ensures WellFormed(CurrentUnlinked(fs)) && OnlyRemoves(CurrentUnlinked(fs), expected)
  {
    var after := CurrentUnlinked(fs);
    forall content | SurvivesCurrent(after, content) ensures content in {None, Some(expected)} {
      var staged :| Survives(after, Disk(content, staged));
      var i :| 0 <= i < |after.dirs| && SurvivesAt(after, i, Disk(content, staged));
      if i < |fs.dirs| {
        assert SurvivesAt(fs, i, Disk(content, staged));
        assert Survives(fs, Disk(content, staged));
        assert SurvivesCurrent(fs, content);
      }
    }
  }

  lemma StageOnlyRemoves(fs: Fs, expected: Bytes)
    requires WellFormed(fs) && OnlyRemoves(fs, expected) && Last(fs).current.None?
    ensures WellFormed(StageUnlinked(fs)) && OnlyRemoves(StageUnlinked(fs), expected)
  {
    var after := StageUnlinked(fs);
    forall content | SurvivesCurrent(after, content) ensures content in {None, Some(expected)} {
      var staged :| Survives(after, Disk(content, staged));
      var i :| 0 <= i < |after.dirs| && SurvivesAt(after, i, Disk(content, staged));
      if i < |fs.dirs| {
        assert SurvivesAt(fs, i, Disk(content, staged));
        assert Survives(fs, Disk(content, staged));
        assert SurvivesCurrent(fs, content);
      }
    }
  }

  lemma NarrowerOnlyRemoves(fs: Fs, after: Fs, expected: Bytes)
    requires WellFormed(fs) && OnlyRemoves(fs, expected) && WellFormed(after) && OnlyNarrowed(fs, after)
    ensures OnlyRemoves(after, expected)
  {
    CurrentsCarried(fs, after);
  }

  lemma Narrowed(before: Fs, expected: Option<Bytes>, bytes: Bytes, fs: Fs)
    requires WellFormed(before) && WellFormed(fs)
    requires forall disk :: Survives(fs, disk) ==> Survives(before, disk)
    ensures Contained(before, bytes, fs) && Follows(before, expected, bytes, fs)
  {
  }

  lemma NothingNarrows(trace: seq<Fs>, fs: Fs, bytes: Bytes, expected: Option<Bytes>)
    requires WellFormed(fs)
    ensures ContainedSince(trace, |trace|, fs, bytes) && Follows(fs, expected, bytes, fs)
  {
  }

  lemma NarrowedTrace(trace: seq<Fs>, from: nat, before: Fs, bytes: Bytes)
    requires from <= |trace| && WellFormed(before)
    requires forall i :: from <= i < |trace| ==>
      WellFormed(trace[i]) && forall disk :: Survives(trace[i], disk) ==> Survives(before, disk)
    ensures ContainedSince(trace, from, before, bytes)
  {
  }

  lemma CurrentsCarried(before: Fs, fs: Fs)
    requires WellFormed(before) && WellFormed(fs)
    requires forall disk :: Survives(fs, disk) ==> Survives(before, disk)
    ensures forall content :: SurvivesCurrent(fs, content) ==> SurvivesCurrent(before, content)
  {
    forall content | SurvivesCurrent(fs, content) ensures SurvivesCurrent(before, content) {
      var staged :| Survives(fs, Disk(content, staged));
      assert Survives(before, Disk(content, staged));
    }
  }
}
