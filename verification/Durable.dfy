/**
 The protected store beneath every protocol: stage, sync, rename, sync.

 The file system keeps what is visible apart from what would survive a power
 loss. A directory entry is durable only after the directory is synchronized;
 a file's bytes only after the file is. `Survives` gives every disk a crash may
 leave, and the store logs each intermediate state so that contracts can speak
 about a crash at any point.
 */
module Durable {
  import opened Wrappers
  import opened Octets

  const MAX_RECORD_BYTES: nat := 65536

  datatype File = File(bytes: Bytes, synced: bool)
  datatype Dir = Dir(current: Option<nat>, staged: Option<nat>)

  /** The last directory is the visible one; earlier ones may still be what is durable. */
  datatype Fs = Fs(files: seq<File>, dirs: seq<Dir>)

  /** What a reader finds, or what is left after a power loss. */
  datatype Disk = Disk(current: Option<Bytes>, staged: Option<Bytes>)

  predicate Entry(fs: Fs, id: Option<nat>) { id.Some? ==> id.value < |fs.files| }

  predicate WellFormed(fs: Fs) {
    && fs.dirs != []
    && forall i :: 0 <= i < |fs.dirs| ==> Entry(fs, fs.dirs[i].current) && Entry(fs, fs.dirs[i].staged)
  }

  function Last(fs: Fs): (dir: Dir)
    requires WellFormed(fs)
  {
    fs.dirs[|fs.dirs| - 1]
  }

  function ContentOf(fs: Fs, id: Option<nat>): (found: Option<Bytes>)
    requires Entry(fs, id)
  {
    if id.None? then None else Some(fs.files[id.value].bytes)
  }

  function Visible(fs: Fs): (disk: Disk)
    requires WellFormed(fs)
  {
    Disk(ContentOf(fs, Last(fs).current), ContentOf(fs, Last(fs).staged))
  }

  /** Unsynchronized bytes may be cut anywhere. */
  predicate ContentSurvives(fs: Fs, id: Option<nat>, content: Option<Bytes>)
    requires Entry(fs, id)
  {
    if id.None? then content.None?
    else
      var f := fs.files[id.value];
      content.Some? && (if f.synced then content.value == f.bytes else content.value <= f.bytes)
  }

  predicate SurvivesAt(fs: Fs, i: nat, disk: Disk)
    requires WellFormed(fs) && i < |fs.dirs|
  {
    ContentSurvives(fs, fs.dirs[i].current, disk.current) && ContentSurvives(fs, fs.dirs[i].staged, disk.staged)
  }

  /** disk is a possible result of losing power in fs. */
  ghost predicate Survives(fs: Fs, disk: Disk)
    requires WellFormed(fs)
  {
    exists i :: 0 <= i < |fs.dirs| && SurvivesAt(fs, i, disk)
  }

  ghost predicate SurvivesCurrent(fs: Fs, content: Option<Bytes>)
    requires WellFormed(fs)
  {
    exists staged :: Survives(fs, Disk(content, staged))
  }

  /** Nothing is pending: a crash leaves exactly what is visible. */
  predicate Settled(fs: Fs) {
    && WellFormed(fs) && |fs.dirs| == 1
    && (fs.dirs[0].current.Some? ==> fs.files[fs.dirs[0].current.value].synced)
    && (fs.dirs[0].staged.Some? ==> fs.files[fs.dirs[0].staged.value].synced)
  }

  lemma SettledSurvives(fs: Fs, disk: Disk)
    requires Settled(fs)
    ensures Survives(fs, disk) <==> disk == Visible(fs)
  {
    if disk == Visible(fs) {
      assert SurvivesAt(fs, 0, disk);
    }
  }

  // ----- System calls as state changes ------------------------------------------

  function SyncedFile(fs: Fs, id: nat): (after: Fs)
    requires id < |fs.files|
  {
    fs.(files := fs.files[id := fs.files[id].(synced := true)])
  }

  function SyncedDir(fs: Fs): (after: Fs)
    requires WellFormed(fs)
  {
    fs.(dirs := [Last(fs)])
  }

  function StageCreated(fs: Fs): (after: Fs)
    requires WellFormed(fs)
  {
    Fs(fs.files + [File([], false)], fs.dirs + [Last(fs).(staged := Some(|fs.files|))])
  }

  function StageWritten(fs: Fs, bytes: Bytes): (after: Fs)
    requires WellFormed(fs) && Last(fs).staged.Some?
  {
    fs.(files := fs.files[Last(fs).staged.value := File(bytes, false)])
  }

  function Renamed(fs: Fs): (after: Fs)
    requires WellFormed(fs) && Last(fs).staged.Some?
  {
    fs.(dirs := fs.dirs + [Dir(Last(fs).staged, None)])
  }

  function CurrentUnlinked(fs: Fs): (after: Fs)
    requires WellFormed(fs)
  {
    fs.(dirs := fs.dirs + [Last(fs).(current := None)])
  }

  function StageUnlinked(fs: Fs): (after: Fs)
    requires WellFormed(fs)
  {
    fs.(dirs := fs.dirs + [Last(fs).(staged := None)])
  }

  lemma SyncedFileNarrows(fs: Fs, id: nat)
    requires WellFormed(fs) && id < |fs.files|
    ensures WellFormed(SyncedFile(fs, id)) && Visible(SyncedFile(fs, id)) == Visible(fs)
    ensures forall disk :: Survives(SyncedFile(fs, id), disk) ==> Survives(fs, disk)
  {
    var after := SyncedFile(fs, id);
    forall disk | Survives(after, disk) ensures Survives(fs, disk) {
      var i :| 0 <= i < |after.dirs| && SurvivesAt(after, i, disk);
      assert SurvivesAt(fs, i, disk);
    }
  }

  lemma SyncedDirNarrows(fs: Fs)
    requires WellFormed(fs)
    ensures WellFormed(SyncedDir(fs)) && Visible(SyncedDir(fs)) == Visible(fs)
    ensures forall disk :: Survives(SyncedDir(fs), disk) ==> Survives(fs, disk)
  {
    var after := SyncedDir(fs);
    forall disk | Survives(after, disk) ensures Survives(fs, disk) {
      assert SurvivesAt(fs, |fs.dirs| - 1, disk);
    }
  }

  // ----- What one publication may leave behind ----------------------------------

  /** The disks reachable by losing power while publishing bytes over the states of before. */
  ghost predicate MayLeave(before: Fs, bytes: Bytes, disk: Disk)
    requires WellFormed(before)
  {
    || Survives(before, disk)
    || (SurvivesCurrent(before, disk.current) && disk.staged.Some? && disk.staged.value <= bytes)
    || disk == Disk(Some(bytes), None)
  }

  ghost predicate Contained(before: Fs, bytes: Bytes, fs: Fs)
    requires WellFormed(before)
  {
    WellFormed(fs) && forall disk :: Survives(fs, disk) ==> MayLeave(before, bytes, disk)
  }

  lemma CreateContained(before: Fs, bytes: Bytes, fs: Fs)
    requires WellFormed(before) && Contained(before, bytes, fs)
    requires forall content :: SurvivesCurrent(fs, content) ==> SurvivesCurrent(before, content)
    ensures Contained(before, bytes, StageCreated(fs))
    ensures Visible(StageCreated(fs)) == Visible(fs).(staged := Some([]))
  {
    var after := StageCreated(fs);
    forall disk | Survives(after, disk) ensures MayLeave(before, bytes, disk) {
      var i :| 0 <= i < |after.dirs| && SurvivesAt(after, i, disk);
      if i < |fs.dirs| {
        assert SurvivesAt(fs, i, disk);
      } else {
        OldCurrent(fs, |fs.dirs| - 1, disk.current);
      }
    }
  }

  lemma OldCurrent(fs: Fs, i: nat, content: Option<Bytes>)
    requires WellFormed(fs) && i < |fs.dirs| && ContentSurvives(fs, fs.dirs[i].current, content)
    ensures SurvivesCurrent(fs, content)
  {
    var staged := ContentOf(fs, fs.dirs[i].staged);
    assert SurvivesAt(fs, i, Disk(content, staged));
    assert Survives(fs, Disk(content, staged));
  }

  /** Writing into a fresh stage changes only how much of it may survive. */
  lemma WriteContained(before: Fs, bytes: Bytes, base: Fs, part: Bytes)
    requires WellFormed(before) && Contained(before, bytes, base)
    requires forall content :: SurvivesCurrent(base, content) ==> SurvivesCurrent(before, content)
    requires part <= bytes
    ensures Contained(before, bytes, StageWritten(StageCreated(base), part))
    ensures Visible(StageWritten(StageCreated(base), part)) == Visible(base).(staged := Some(part))
  {
    var after := StageWritten(StageCreated(base), part);
    forall disk | Survives(after, disk) ensures MayLeave(before, bytes, disk) {
      var i :| 0 <= i < |after.dirs| && SurvivesAt(after, i, disk);
      if i < |base.dirs| {
        assert SurvivesAt(base, i, disk);
      } else {
        OldCurrent(base, |base.dirs| - 1, disk.current);
      }
    }
  }

  lemma RenameContained(before: Fs, bytes: Bytes, fs: Fs)
    requires WellFormed(before) && Contained(before, bytes, fs)
    requires Last(fs).staged.Some? && fs.files[Last(fs).staged.value] == File(bytes, true)
    ensures Contained(before, bytes, Renamed(fs)) && Visible(Renamed(fs)) == Disk(Some(bytes), None)
    ensures Settled(SyncedDir(Renamed(fs)))
  {
    var after := Renamed(fs);
    forall disk | Survives(after, disk) ensures MayLeave(before, bytes, disk) {
      var i :| 0 <= i < |after.dirs| && SurvivesAt(after, i, disk);
      if i < |fs.dirs| {
        assert SurvivesAt(fs, i, disk);
      }
    }
  }

  lemma NarrowerContained(before: Fs, bytes: Bytes, fs: Fs, after: Fs)
    requires WellFormed(before) && Contained(before, bytes, fs) && WellFormed(after)
    requires forall disk :: Survives(after, disk) ==> Survives(fs, disk)
    ensures Contained(before, bytes, after)
  {
  }

  /** From a settled store, publication leaves the old record with any part of a stage, or the new record. */
  lemma SettledLeaves(before: Fs, bytes: Bytes, disk: Disk)
    requires Settled(before) && MayLeave(before, bytes, disk)
    ensures disk.current == Visible(before).current || disk == Disk(Some(bytes), None)
    ensures disk.current != Some(bytes) ==>
      disk.staged == Visible(before).staged || (disk.staged.Some? && disk.staged.value <= bytes)
  {
    SettledSurvives(before, disk);
    if SurvivesCurrent(before, disk.current) {
      var staged :| Survives(before, Disk(disk.current, staged));
      SettledSurvives(before, Disk(disk.current, staged));
    }
  }

  // ----- Exactly what stands between the old directory and the new ----------------

  /** Part of a stage that is still visible, or that the new record was renamed from. */
  predicate PartOf(shown: Disk, bytes: Bytes, stage: Option<Bytes>) {
    && stage.Some?
    && ((shown.staged.Some? && stage.value <= shown.staged.value)
        || (shown == Disk(Some(bytes), None) && stage.value <= bytes))
  }

  /**
   A publication over exactly expected has reached fs: apart from what could survive
   before it, a crash leaves expected with part of its stage, or what is visible.
   */
  ghost predicate Follows(before: Fs, expected: Option<Bytes>, bytes: Bytes, fs: Fs)
    requires WellFormed(before)
  {
    && WellFormed(fs)
    && forall disk :: Survives(fs, disk) ==>
         || Survives(before, disk)
         || (disk.current == expected && PartOf(Visible(fs), bytes, disk.staged))
         || disk == Visible(fs)
  }

  /** The visible current file, if any, is durable as expected. */
  ghost predicate Certain(fs: Fs, expected: Option<Bytes>)
    requires WellFormed(fs)
  {
    forall content :: ContentSurvives(fs, Last(fs).current, content) ==> content == expected
  }

  lemma CreateFollows(before: Fs, expected: Option<Bytes>, bytes: Bytes, base: Fs)
    requires WellFormed(before) && WellFormed(base) && Certain(base, expected)
    requires forall disk :: Survives(base, disk) ==> Survives(before, disk)
    ensures Follows(before, expected, bytes, StageCreated(base))
  {
    var after := StageCreated(base);
    forall disk | Survives(after, disk)
      ensures Survives(before, disk) || (disk.current == expected && PartOf(Visible(after), bytes, disk.staged))
    {
      var i :| 0 <= i < |after.dirs| && SurvivesAt(after, i, disk);
      if i < |base.dirs| {
        assert SurvivesAt(base, i, disk);
      } else {
        assert ContentSurvives(base, Last(base).current, disk.current);
      }
    }
  }

  lemma WriteFollows(before: Fs, expected: Option<Bytes>, bytes: Bytes, base: Fs, part: Bytes)
    requires WellFormed(before) && WellFormed(base) && Certain(base, expected)
    requires forall disk :: Survives(base, disk) ==> Survives(before, disk)
    ensures Follows(before, expected, bytes, StageWritten(StageCreated(base), part))
  {
    var after := StageWritten(StageCreated(base), part);
    forall disk | Survives(after, disk)
      ensures Survives(before, disk) || (disk.current == expected && PartOf(Visible(after), bytes, disk.staged))
    {
      var i :| 0 <= i < |after.dirs| && SurvivesAt(after, i, disk);
      if i < |base.dirs| {
        assert SurvivesAt(base, i, disk);
      } else {
        assert ContentSurvives(base, Last(base).current, disk.current);
      }
    }
  }

  lemma NarrowerFollows(before: Fs, expected: Option<Bytes>, bytes: Bytes, fs: Fs, after: Fs)
    requires WellFormed(before) && Follows(before, expected, bytes, fs) && WellFormed(after)
    requires Visible(after) == Visible(fs)
    requires forall disk :: Survives(after, disk) ==> Survives(fs, disk)
    ensures Follows(before, expected, bytes, after)
  {
  }

  lemma RenameFollows(before: Fs, expected: Option<Bytes>, bytes: Bytes, fs: Fs)
    requires WellFormed(before) && Follows(before, expected, bytes, fs)
    requires Last(fs).staged.Some? && fs.files[Last(fs).staged.value] == File(bytes, true)
    requires Visible(fs).current == expected
    ensures Follows(before, expected, bytes, Renamed(fs)) && Visible(Renamed(fs)) == Disk(Some(bytes), None)
  {
    var after := Renamed(fs);
    forall disk | Survives(after, disk)
      ensures || Survives(before, disk)
              || (disk.current == expected && PartOf(Visible(after), bytes, disk.staged))
              || disk == Visible(after)
    {
      var i :| 0 <= i < |after.dirs| && SurvivesAt(after, i, disk);
      if i < |fs.dirs| {
        assert SurvivesAt(fs, i, disk);
      }
    }
  }

  lemma CertainBySurvivors(fs: Fs, expected: Option<Bytes>)
    requires WellFormed(fs) && forall content :: SurvivesCurrent(fs, content) ==> content == expected
    ensures Certain(fs, expected)
  {
    forall content | ContentSurvives(fs, Last(fs).current, content) ensures content == expected {
      OldCurrent(fs, |fs.dirs| - 1, content);
    }
  }

  lemma CertainAbsence(fs: Fs)
    requires WellFormed(fs) && Visible(fs).current.None?
    ensures Certain(fs, None)
  {
  }

  /** What a publication over exactly expected may make of what is visible. */
  predicate Advances(before: Disk, expected: Option<Bytes>, bytes: Bytes, after: Disk) {
    || after == before
    || (before == Disk(expected, None) && after.current == expected
        && after.staged.Some? && after.staged.value <= bytes)
    || (before.current == expected && before.staged in {None, Some(bytes)} && after == Disk(Some(bytes), None))
  }

  // ----- What removing a finished cleanup record may leave behind ----------------

  ghost predicate MayLeaveRemoved(before: Fs, disk: Disk)
    requires WellFormed(before)
  {
    || Survives(before, disk)
    || (disk.current.None? && (disk.staged.None? || exists content :: Survives(before, Disk(content, disk.staged))))
  }

  ghost predicate RemovalContained(before: Fs, fs: Fs)
    requires WellFormed(before)
  {
    WellFormed(fs) && forall disk :: Survives(fs, disk) ==> MayLeaveRemoved(before, disk)
  }

  lemma UnlinkCurrentContained(before: Fs, fs: Fs)
    requires WellFormed(before) && WellFormed(fs)
    requires forall disk :: Survives(fs, disk) ==> Survives(before, disk)
    ensures RemovalContained(before, CurrentUnlinked(fs))
  {
    var after := CurrentUnlinked(fs);
    forall disk | Survives(after, disk) ensures MayLeaveRemoved(before, disk) {
      var i :| 0 <= i < |after.dirs| && SurvivesAt(after, i, disk);
      if i < |fs.dirs| {
        assert SurvivesAt(fs, i, disk);
      } else {
        var was := Disk(ContentOf(fs, Last(fs).current), disk.staged);
        assert SurvivesAt(fs, |fs.dirs| - 1, was);
        assert Survives(before, was);
      }
    }
  }

  lemma UnlinkStageContained(before: Fs, fs: Fs)
    requires WellFormed(before) && RemovalContained(before, fs) && Last(fs).current.None?
    ensures RemovalContained(before, StageUnlinked(fs))
    ensures Settled(SyncedDir(StageUnlinked(fs))) && Visible(StageUnlinked(fs)) == Disk(None, None)
  {
    var after := StageUnlinked(fs);
    forall disk | Survives(after, disk) ensures MayLeaveRemoved(before, disk) {
      var i :| 0 <= i < |after.dirs| && SurvivesAt(after, i, disk);
      if i < |fs.dirs| {
        assert SurvivesAt(fs, i, disk);
      }
    }
  }

  /** The stage a publication over an empty store makes durable before its rename. */
  function FirstStaged(fs: Fs, bytes: Bytes): (staged: Fs)
    requires WellFormed(fs)
    ensures WellFormed(staged) && Visible(staged) == Visible(fs).(staged := Some(bytes))
  {
    SyncedFile(StageWritten(StageCreated(fs), bytes), |fs.files|)
  }

  /**
   Publishing over an absent record does not first make that absence durable: a
   record whose deletion was never synchronized may still come back until the
   last synchronization of the publication.
   */
  lemma UnlinkedMayReturn(fs: Fs, bytes: Bytes)
    requires Settled(fs) && Visible(fs).current.Some?
    ensures WellFormed(CurrentUnlinked(fs)) && Visible(CurrentUnlinked(fs)).current == None
    ensures var staged := FirstStaged(CurrentUnlinked(fs), bytes);
      WellFormed(staged) && Survives(staged, Visible(fs)) && Survives(Renamed(staged), Visible(fs))
  {
    var staged := FirstStaged(CurrentUnlinked(fs), bytes);
    assert SurvivesAt(staged, 0, Visible(fs));
    assert SurvivesAt(Renamed(staged), 0, Visible(fs));
  }

  /**
   The exact rule: a first publication leaves nothing or the new record on every
   disk if and only if the absence it started from was itself all that could survive.
   */
  lemma AbsenceMustBeDurable(fs: Fs, bytes: Bytes)
    requires WellFormed(fs) && Visible(fs) == Disk(None, None)
    ensures
      (forall disk :: Survives(Renamed(FirstStaged(fs, bytes)), disk) ==> disk.current in {None, Some(bytes)})
      <==> (forall content :: SurvivesCurrent(fs, content) ==> content in {None, Some(bytes)})
  {
    var renamed := Renamed(FirstStaged(fs, bytes));
    assert WellFormed(renamed);
    hide Renamed, FirstStaged, SurvivesCurrent, Survives;
    if forall disk :: Survives(renamed, disk) ==> disk.current in {None, Some(bytes)} {
      forall content | SurvivesCurrent(fs, content) ensures content in {None, Some(bytes)} {
        var disk := OlderStillSurvives(fs, bytes, content);
      }
    }
    if forall content :: SurvivesCurrent(fs, content) ==> content in {None, Some(bytes)} {
      forall disk | Survives(renamed, disk) ensures disk.current in {None, Some(bytes)} {
        OnlyOlderOrNew(fs, bytes, disk);
      }
    }
  }

  /** Whatever could survive before such a publication still can. */
  lemma OlderStillSurvives(fs: Fs, bytes: Bytes, content: Option<Bytes>) returns (disk: Disk)
    requires WellFormed(fs) && SurvivesCurrent(fs, content)
    ensures disk.current == content && Survives(Renamed(FirstStaged(fs, bytes)), disk)
  {
    var renamed := Renamed(FirstStaged(fs, bytes));
    var staged :| Survives(fs, Disk(content, staged));
    disk := Disk(content, staged);
    var i :| 0 <= i < |fs.dirs| && SurvivesAt(fs, i, disk);
    assert SurvivesAt(renamed, i, disk);
  }

  lemma OnlyOlderOrNew(fs: Fs, bytes: Bytes, disk: Disk)
    requires WellFormed(fs) && Visible(fs) == Disk(None, None) && Survives(Renamed(FirstStaged(fs, bytes)), disk)
    ensures SurvivesCurrent(fs, disk.current) || disk.current in {None, Some(bytes)}
  {
    var renamed := Renamed(FirstStaged(fs, bytes));
    var i :| 0 <= i < |renamed.dirs| && SurvivesAt(renamed, i, disk);
    if i < |fs.dirs| {
      OldCurrent(fs, i, disk.current);
    }
  }

  /** Losing power just before that rename leaves a stage with nothing beside it. */
  lemma FirstStageMayStandAlone(fs: Fs, bytes: Bytes)
    requires Settled(fs) && Visible(fs) == Disk(None, None)
    ensures Contained(fs, bytes, FirstStaged(fs, bytes))
    ensures Survives(FirstStaged(fs, bytes), Disk(None, Some(bytes)))
  {
    var staged := FirstStaged(fs, bytes);
    WriteContained(fs, bytes, fs, bytes);
    SyncedFileNarrows(StageWritten(StageCreated(fs), bytes), |fs.files|);
    assert SurvivesAt(staged, |staged.dirs| - 1, Disk(None, Some(bytes)));
  }
}
