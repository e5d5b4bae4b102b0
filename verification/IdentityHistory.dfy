/**
 What whole histories of rotation records guarantee: undoing restores the record
 exactly, completing changes only the configuration, and every path of permitted
 successors selects the target if and only if it passed through revocation.
 */
module IdentityHistory {
  import opened Wrappers
  import opened Records
  import opened IdentityRecords

  function AdvanceBy(r: Record, k: nat): (result: Result<Record>)
    decreases k
  {
    if k == 0 then Ok(r)
    else
      var next :- AdvanceRecord(r);
      AdvanceBy(next, k - 1)
  }

  lemma AtAt(r: Record, c: Checkpoint, d: Checkpoint)
    requires r.rotation.Some?
    ensures At(At(r, c), d) == At(r, d)
  {
    hide Resources;
    var v := r.rotation.value;
    var x, y := At(At(r, c), d), At(r, d);
    assert x.rotation == y.rotation && x.config == y.config;
    BlankFootprint(At(r, c).(rotation := x.rotation, config := x.config), r.resources);
  }

  /** A footprint does not depend on the resource list it replaces. */
  lemma BlankFootprint(r: Record, other: seq<Resource>)
    ensures Resources(r.(resources := other)) == Resources(r)
  {
    var s := r.(resources := other);
    assert Auxiliary(s) == Auxiliary(r);
    assert PriorResources(s) == PriorResources(r);
  }

  lemma AtShows(r: Record, c: Checkpoint)
    requires Valid(r) && RotationOf(r).Ok?
    ensures RotationOf(At(r, c)).Ok? && At(r, c).rotation.value.checkpoint == c
    ensures Valid(At(r, c))
  {
    AtIsValid(r, c);
    hide Valid, Resources;
  }

  /** k advances succeed exactly when they stay within the eleven checkpoints. */
  lemma {:induction false} AdvanceByIsAt(r: Record, k: nat)
    requires Valid(r) && RotationOf(r).Ok?
    ensures AdvanceBy(r, k).Ok? <==> r.rotation.value.checkpoint.Index() + k <= 10
    ensures AdvanceBy(r, k).Ok? ==>
      AdvanceBy(r, k).value == At(r, FromIndex(r.rotation.value.checkpoint.Index() + k).value)
    decreases k
  {
    hide Valid, AdvanceRecord, At;
    var c := r.rotation.value.checkpoint;
    if k == 0 {
      AtIsValid(r, c);
    } else {
      AdvanceIsAt(r);
      if c != TargetStarted {
        var d := FromIndex(c.Index() + 1).value;
        AtShows(r, d);
        AdvanceByIsAt(At(r, d), k - 1);
        if c.Index() + k <= 10 {
          AtAt(r, d, FromIndex(c.Index() + k).value);
        }
      }
    }
  }

  /** The record with the integration kept after a rotation that added it. */
  function Retained(r: Record, startup: Startup, creator: Release): (next: Record)
    requires Upgrade(r).creators.Some?
  {
    var u := Upgrade(r);
    u.(startup := Some(startup),
       resources := u.resources + NewStartup(r, startup),
       creators := Some(u.creators.value + seq(|NewStartup(r, startup)|, _ => creator)))
  }

  /** The record without any integration. */
  function Dropped(r: Record): (next: Record)
    requires Upgrade(r).creators.Some? && |PriorResources(Upgrade(r))| <= |Upgrade(r).creators.value|
  {
    var u := Upgrade(r);
    u.(startup := None, resources := PriorResources(u),
       creators := Some(u.creators.value[..|PriorResources(u)|]))
  }

  /** What the opened record owns, part by part. */
  lemma OpenedParts(r: Record, operation: string, m: Material, startup: Startup, creator: Release)
    requires Valid(r) && BeginAllowed(r, operation, m, startup)
    ensures Upgrade(r).creators.Some?
    ensures var u := Upgrade(r);
      var o := Opened(r, operation, m, startup, creator);
      && Valid(u) && Valid(o) && u.rotation.None? && o.config == m.source
      && o.rotation.Some? && o.rotation.value.source == m.source && o.rotation.value.target == m.target
      && u.resources == PriorResources(u) + StartupFootprint(u)
      && |u.creators.value| == |u.resources|
      && PriorResources(o) == PriorResources(u)
      && StartupFootprint(o) == StartupFootprint(u) + NewStartup(r, startup)
      && RotationFootprint(o) == Staging(r, m)
  {
    UpgradeIsValid(r);
    OpenedIsValid(r, operation, m, startup, creator);
    var u := Upgrade(r);
    var o := Opened(r, operation, m, startup, creator);
    assert Trailing(o) == Trailing(u);
    assert u.resources == PriorResources(u) + StartupFootprint(u) + [];
    hide Upgrade, Trailing, SchemaShape, ProgressShape, OperationShape;
  }

  /** Before publication the recorded resources do not depend on the checkpoint. */
  lemma AtParts(r: Record, c: Checkpoint)
    requires Valid(r) && r.rotation.Some? && r.config == r.rotation.value.source && c.Index() < 9
    ensures PriorResources(At(r, c)) == PriorResources(r)
    ensures StartupFootprint(At(r, c)) == StartupFootprint(r)
    ensures RotationFootprint(At(r, c)) == RotationFootprint(r)
    ensures At(r, c).creators == r.creators && |Resources(At(r, c))| == |Resources(r)|
  {
    AtFootprint(r, c);
    hide Trailing, Valid;
  }

  lemma ClosedOpened(r: Record, operation: string, m: Material, startup: Startup, creator: Release, c: Checkpoint,
                     retain: bool)
    requires Valid(r) && BeginAllowed(r, operation, m, startup)
    requires c.Index() < 9
    ensures Upgrade(r).creators.Some?
    ensures |PriorResources(Upgrade(r))| <= |Upgrade(r).creators.value|
    ensures var a := At(Opened(r, operation, m, startup, creator), c);
      && a.creators.Some? && |a.creators.value| == |Resources(a)|
      && Closed(a, retain) == Restored(r, startup, creator, retain)
  {
    hide Valid, BeginAllowed, Upgrade, PriorResources, StartupFootprint, RotationFootprint, NewStartup, Staging;
    OpenedParts(r, operation, m, startup, creator);
    var u := Upgrade(r);
    var o := Opened(r, operation, m, startup, creator);
    var a := At(o, c);
    AtParts(o, c);
    var n := |PriorResources(u)|;
    var added := seq(|NewStartup(r, startup)|, _ => creator);
    assert o.creators.value == u.creators.value + added + seq(|Staging(r, m)|, _ => creator);
    if retain {
      var k := n + |StartupFootprint(a)|;
      assert o.creators.value[..k] == u.creators.value + added;
      assert Resources(a)[..k] == PriorResources(u) + (StartupFootprint(u) + NewStartup(r, startup));
      assert Resources(a)[..k] == u.resources + NewStartup(r, startup);
    } else {
      assert o.creators.value[..n] == u.creators.value[..n];
      assert Resources(a)[..n] == PriorResources(u);
    }
  }

  /** The record an abandoned rotation returns to. */
  function Restored(r: Record, startup: Startup, creator: Release, retain: bool): (next: Record)
    requires Upgrade(r).creators.Some? && |PriorResources(Upgrade(r))| <= |Upgrade(r).creators.value|
  {
    if retain then Retained(r, startup, creator) else Dropped(r)
  }

  /**
   Begin, fewer than eight advances, then clear: the original record comes back
   exactly when the integration is kept if and only if it was there before; every
   other choice differs by that integration alone.
   */
  lemma AbandonedRotationRestores(r: Record, operation: string, m: Material, directoryCreated: bool, creator: Release,
                                  k: nat, retain: bool)
    requires Valid(r) && k < 8
    requires BeginRecord(r, operation, m, Integration(directoryCreated), creator).Ok?
    ensures
      var startup := Integration(directoryCreated);
      var reached := AdvanceBy(BeginRecord(r, operation, m, startup, creator).value, k);
      && Upgrade(r).creators.Some?
      && |PriorResources(Upgrade(r))| <= |Upgrade(r).creators.value|
      && reached.Ok?
      && ClearRecord(reached.value, retain) == Ok(Restored(r, startup, creator, retain))
      && (retain == r.startup.Some? ==> Restored(r, startup, creator, retain) == Upgrade(r))
      && (r.schema == 2 ==> Upgrade(r) == r)
  {
    var startup := Integration(directoryCreated);
    BeginReaches(r, operation, m, startup, creator, k);
    UpgradeIsValid(r);
    var c := FromIndex(k).value;
    ClosedOpened(r, operation, m, startup, creator, c, retain);
    hide Valid, BeginRecord, ClearRecord, Upgrade, At, Opened, Restored, BeginAllowed;
    ClearIsClosed(At(Opened(r, operation, m, startup, creator), c), retain);
    if retain == r.startup.Some? {
      RestoredIsOriginal(r, startup, creator, retain);
    }
  }

  /** Beginning and then advancing k times shows checkpoint k of the opened record. */
  lemma BeginReaches(r: Record, operation: string, m: Material, startup: Startup, creator: Release, k: nat)
    requires Valid(r) && k <= 10 && BeginRecord(r, operation, m, startup, creator).Ok?
    ensures Upgrade(r).creators.Some? && BeginAllowed(r, operation, m, startup)
    ensures (r.startup.Some? ==> r.startup.value == startup) && r.rotation.None?
    ensures r.phase == Running && r.direction == Idle
    ensures var a := At(Opened(r, operation, m, startup, creator), FromIndex(k).value);
      && AdvanceBy(BeginRecord(r, operation, m, startup, creator).value, k) == Ok(a)
      && Valid(a) && RotationOf(a).Ok? && a.rotation.value.checkpoint.Index() == k && a.startup == Some(startup)
  {
    BeginIsOpened(r, operation, m, startup, creator);
    BeginOpens(r, operation, m, startup, creator);
    var o := Opened(r, operation, m, startup, creator);
    AtShows(o, FromIndex(k).value);
    hide Valid, BeginRecord, Upgrade, Resources, AdvanceRecord;
    AdvanceByIsAt(o, k);
  }

  lemma RestoredIsOriginal(r: Record, startup: Startup, creator: Release, retain: bool)
    requires Valid(Upgrade(r)) && Upgrade(r).schema == 2 && r.rotation.None?
    requires r.startup.Some? ==> r.startup.value == startup
    requires retain == r.startup.Some?
    ensures |PriorResources(Upgrade(r))| <= |Upgrade(r).creators.value|
    ensures Restored(r, startup, creator, retain) == Upgrade(r)
  {
    var u := Upgrade(r);
    assert u.resources == PriorResources(u) + StartupFootprint(u) + [];
    if retain {
      assert seq(|NewStartup(r, startup)|, _ => creator) == [];
      assert u.resources + NewStartup(r, startup) == u.resources;
      assert u.creators.value + [] == u.creators.value;
    } else {
      assert u.resources == PriorResources(u);
      assert u.creators.value[..|PriorResources(u)|] == u.creators.value;
    }
  }

  /** A completed rotation changes the configuration and its one resource, and keeps the integration. */
  lemma CompletedRotationSelectsTarget(r: Record, operation: string, m: Material, directoryCreated: bool,
                                       creator: Release)
    requires Valid(r)
    requires BeginRecord(r, operation, m, Integration(directoryCreated), creator).Ok?
    ensures
      var startup := Integration(directoryCreated);
      var reached := AdvanceBy(BeginRecord(r, operation, m, startup, creator).value, TargetStarted.Index());
      && Upgrade(r).creators.Some?
      && reached.Ok?
      && |Retained(r, startup, creator).resources| > 10
      && ClearRecord(reached.value, true) == Ok(Retained(r, startup, creator).(
           config := m.target,
           resources := Retained(r, startup, creator).resources[10 := ConfigFile(m.target)]))
      && ClearRecord(reached.value, false).Err?
  {
    hide *;
    var startup := Integration(directoryCreated);
    LastIndex();
    BeginReaches(r, operation, m, startup, creator, TargetStarted.Index());
    CompletedCloses(r, operation, m, directoryCreated, creator);
  }

  /**
   The completed rotation leaves its drop-in, so the next review finds the directory.
   Another rotation can then begin if and only if the first one found it too (and the
   caller's other checks hold): a directory the first rotation created stops every
   later one.
   */
  lemma SecondRotation(r: Record, operation: string, m: Material, found: bool, creator: Release,
                       again: string, n: Material, successor: Release)
    requires Valid(r) && r.startup.None?
    requires BeginRecord(r, operation, m, Admitted(found), creator).Ok?
    ensures
      var reached := AdvanceBy(BeginRecord(r, operation, m, Admitted(found), creator).value, TargetStarted.Index());
      && reached.Ok? && ClearRecord(reached.value, true).Ok?
      && var done := ClearRecord(reached.value, true).value;
        && done.startup == Some(Admitted(found)) && done.config == m.target
        && (BeginRecord(done, again, n, Admitted(true), successor).Ok?
            <==> found && BeginAllowed(done, again, n, Admitted(found)))
  {
    hide *;
    AdmittedIs(found);
    CompletedRotationSelectsTarget(r, operation, m, !found, creator);
    var reached := AdvanceBy(BeginRecord(r, operation, m, Admitted(found), creator).value, TargetStarted.Index());
    var done := ClearRecord(reached.value, true).value;
    ClearedIsValid(reached.value, true);
    RetainedStartup(r, Admitted(found), creator);
    BeginIsOpened(done, again, n, Admitted(true), successor);
    KeptMustRecur(done, again, n, found);
  }

  lemma AdmittedIs(found: bool)
    ensures Admitted(found) == Integration(!found)
  {
  }

  lemma ClearedIsValid(r: Record, retain: bool)
    ensures ClearRecord(r, retain).Ok? ==> Valid(ClearRecord(r, retain).value)
  {
    hide Valid;
  }

  lemma RetainedStartup(r: Record, startup: Startup, creator: Release)
    requires Upgrade(r).creators.Some?
    ensures Retained(r, startup, creator).startup == Some(startup)
  {
  }

  lemma KeptMustRecur(done: Record, again: string, n: Material, found: bool)
    requires done.startup == Some(Admitted(found))
    ensures BeginAllowed(done, again, n, Admitted(true)) <==> found && BeginAllowed(done, again, n, Admitted(found))
  {
    hide Valid, PendingChange;
  }

  lemma LastIndex()
    ensures TargetStarted.Index() == 10 && FromIndex(10) == Ok(TargetStarted)
  {
  }

  lemma CompletedCloses(r: Record, operation: string, m: Material, directoryCreated: bool, creator: Release)
    requires Valid(r) && BeginAllowed(r, operation, m, Integration(directoryCreated)) && Upgrade(r).creators.Some?
    requires var a := At(Opened(r, operation, m, Integration(directoryCreated), creator), TargetStarted);
      && Valid(a) && RotationOf(a).Ok? && a.rotation.value.checkpoint.Index() == 10
      && a.startup == Some(Integration(directoryCreated))
    ensures var startup := Integration(directoryCreated);
      var a := At(Opened(r, operation, m, startup, creator), TargetStarted);
      && |Retained(r, startup, creator).resources| > 10
      && ClearRecord(a, true) == Ok(Retained(r, startup, creator).(
           config := m.target,
           resources := Retained(r, startup, creator).resources[10 := ConfigFile(m.target)]))
      && ClearRecord(a, false).Err?
  {
    var startup := Integration(directoryCreated);
    assert startup.dropIn == DROP_IN;
    var a := At(Opened(r, operation, m, startup, creator), TargetStarted);
    LastCheckpoint(a.rotation.value.checkpoint);
    hide *;
    CompletedFootprint(r, operation, m, startup, creator);
    ClearIsClosed(a, true);
    ClearIsClosed(a, false);
  }

  lemma LastCheckpoint(c: Checkpoint)
    ensures c.Index() == 10 <==> c == TargetStarted
    ensures c.Index() >= 9 && c != TargetStarted ==> c == TargetPublished
  {
  }

  lemma AtOverrides(o: Record, c: Checkpoint, d: Checkpoint)
    requires o.rotation.Some?
    ensures At(o, d) == At(o, c).(rotation := At(o, d).rotation, config := At(o, d).config,
                                  resources := Resources(At(o, d)))
  {
    AtFootprint(o, d);
    hide Resources;
  }

  lemma CompletedFootprint(r: Record, operation: string, m: Material, startup: Startup, creator: Release)
    requires Valid(r) && BeginAllowed(r, operation, m, startup)
    ensures Upgrade(r).creators.Some? && |Retained(r, startup, creator).resources| > 10
    ensures var a := At(Opened(r, operation, m, startup, creator), TargetStarted);
      && a.creators.Some? && |a.creators.value| == |Resources(a)|
      && Closed(a, true) == Retained(r, startup, creator).(
           config := m.target,
           resources := Retained(r, startup, creator).resources[10 := ConfigFile(m.target)])
  {
    assert Authorized.Index() < 9;
    hide *;
    ClosedOpened(r, operation, m, startup, creator, Authorized, true);
    RestoredRetains(r, startup, creator);
    OpenedParts(r, operation, m, startup, creator);
    var o := Opened(r, operation, m, startup, creator);
    var x, y := At(o, Authorized), At(o, TargetStarted);
    AtParts(o, Authorized);
    PublishedParts(o);
    PublishedConfig(o);
    AtOverrides(o, Authorized, TargetStarted);
    CompletedClosed(r, startup, creator, x, y, m.target);
  }

  lemma RestoredRetains(r: Record, startup: Startup, creator: Release)
    requires Upgrade(r).creators.Some? && |PriorResources(Upgrade(r))| <= |Upgrade(r).creators.value|
    ensures Restored(r, startup, creator, true) == Retained(r, startup, creator)
  {
    hide Retained, Dropped;
  }

  lemma CompletedClosed(r: Record, startup: Startup, creator: Release, x: Record, y: Record, target: string)
    requires Upgrade(r).creators.Some? && |PriorResources(Upgrade(r))| <= |Upgrade(r).creators.value|
    requires x.creators.Some? && |x.creators.value| == |Resources(x)| == |Resources(y)|
    requires y == x.(rotation := y.rotation, config := target, resources := Resources(y))
    requires Closed(x, true) == Retained(r, startup, creator)
    requires |PriorResources(x)| > 10
    requires PriorResources(y) == PriorResources(x)[10 := ConfigFile(target)]
    requires StartupFootprint(y) == StartupFootprint(x)
    ensures |Retained(r, startup, creator).resources| > 10
    ensures Closed(y, true) == Retained(r, startup, creator).(
              config := target, resources := Retained(r, startup, creator).resources[10 := ConfigFile(target)])
  {
    hide Upgrade, PriorResources, StartupFootprint, RotationFootprint, Retained;
    var k := |PriorResources(x)| + |StartupFootprint(x)|;
    assert Resources(x)[..k] == PriorResources(x) + StartupFootprint(x);
    assert Resources(y)[..k] == PriorResources(y) + StartupFootprint(y);
    assert Closed(y, true).resources == Closed(x, true).resources[10 := ConfigFile(target)];
  }

  lemma PublishedConfig(o: Record)
    requires o.rotation.Some?
    ensures At(o, TargetStarted).config == o.rotation.value.target
  {
    hide Resources;
  }

  /** Publication rewrites the one configuration resource in place. */
  lemma PublishedParts(o: Record)
    requires Valid(o) && o.rotation.Some? && o.config == o.rotation.value.source
    ensures var y := At(o, TargetStarted);
      && |PriorResources(o)| > 10
      && PriorResources(y) == PriorResources(o)[10 := ConfigFile(o.rotation.value.target)]
      && StartupFootprint(y) == StartupFootprint(o)
      && RotationFootprint(y) == RotationFootprint(o)
      && y.creators == o.creators && |Resources(y)| == |Resources(o)|
  {
    AtFootprint(o, TargetStarted);
    var y := At(o, TargetStarted);
    assert o.package && y.package && y.schema == o.schema && y.config == o.rotation.value.target;
    hide Valid, Trailing, At;
    var head := [OwnershipFile(o.schema)] + BASE_FILES;
    assert PriorResources(o) == head + [ConfigFile(o.config)] + Trailing(o);
    assert PriorResources(y) == head + [ConfigFile(y.config)] + Trailing(o);
  }

  /** Every record that beginning can produce is rebuilt from its own metadata. */
  lemma InitialSuccessorRebuilds(r: Record, operation: string, m: Material, directoryCreated: bool, creator: Release)
    requires Valid(r)
    requires BeginRecord(r, operation, m, Integration(directoryCreated), creator).Ok?
    ensures var b := BeginRecord(r, operation, m, Integration(directoryCreated), creator).value;
      InitialSuccessor(r, b) == Ok(b) && PermitsIdentity(r, b)
  {
    hide Valid, BeginRecord, PermitsIdentity, Upgrade, NewStartup, Staging, BeginAllowed;
    var startup := Integration(directoryCreated);
    var b := BeginRecord(r, operation, m, startup, creator).value;
    BeginOpens(r, operation, m, startup, creator);
    MetadataSuffices(r, operation, m, startup, creator);
    assert InitialSuccessor(r, b) == Ok(b);
    Permitted(r, b);
  }

  lemma Permitted(a: Record, b: Record)
    requires InitialSuccessor(a, b) == Ok(b)
    ensures PermitsIdentity(a, b)
  {
    hide InitialSuccessor, AdvanceRecord, ClearRecord;
  }

  /** Artifact digests matter only to a record that is serving. */
  lemma MetadataSuffices(r: Record, operation: string, m: Material, startup: Startup, creator: Release)
    requires Valid(r) && BeginRecord(r, operation, m, startup, creator).Ok?
    ensures var b := BeginRecord(r, operation, m, startup, creator);
      && b.value.rotation.Some? && b.value.creators.Some? && |b.value.creators.value| > 0
      && b.value.creators.value[|b.value.creators.value| - 1] == creator
      && BeginRecord(r, operation, MaterialOf(b.value.rotation.value), startup, creator) == b
  {
    BeginIsOpened(r, operation, m, startup, creator);
    var b := Opened(r, operation, m, startup, creator);
    var again := MaterialOf(b.rotation.value);
    BeginIsOpened(r, operation, again, startup, creator);
    hide BeginRecord, Valid, Upgrade, NewStartup;
    assert |Staging(r, m)| > 0;
    assert Staging(r, again) == Staging(r, m);
    assert Subscription(r, again) == Subscription(r, m);
  }

  // ----- Paths of permitted successors -----------------------------------------

  predicate Path(p: seq<Record>) {
    forall i :: 0 <= i < |p| - 1 ==> PermitsIdentity(p[i], p[i + 1])
  }

  /** Same operation, same source, same target. */
  predicate SameRotation(a: Record, b: Record) {
    && a.rotation.Some? && b.rotation.Some?
    && b.rotation.value.operation == a.rotation.value.operation
    && b.rotation.value.source == a.rotation.value.source
    && b.rotation.value.target == a.rotation.value.target
  }

  predicate OpensFrom(a: Record, b: Record) {
    && a.rotation.None? && b.rotation.Some? && b.rotation.value.checkpoint == Authorized
    && b.rotation.value.source == a.config
  }

  predicate ClosesFrom(a: Record, b: Record) {
    && a.rotation.Some? && b.rotation.None?
    && (var v := a.rotation.value;
        || (v.checkpoint.Index() < 8 && b.config == v.source)
        || (v.checkpoint == TargetStarted && b.config == v.target))
  }

  lemma OpeningShape(a: Record, b: Record)
    requires Valid(a) && InitialSuccessor(a, b) == Ok(b)
    ensures Valid(b) && OpensFrom(a, b)
  {
    hide BeginRecord, Valid, Upgrade, BeginAllowed;
    var startup := Integration(b.startup.value.directoryCreated);
    var creator := b.creators.value[|b.creators.value| - 1];
    BeginOpens(a, b.rotation.value.operation, MaterialOf(b.rotation.value), startup, creator);
  }

  lemma BeginOpens(r: Record, operation: string, m: Material, startup: Startup, creator: Release)
    requires Valid(r) && BeginRecord(r, operation, m, startup, creator).Ok?
    ensures var b := BeginRecord(r, operation, m, startup, creator).value;
      && Valid(b) && OpensFrom(r, b)
      && b.rotation == Some(Rotation(operation, Backward, [], m.source, m.target, Authorized, Subscription(r, m)))
      && b.startup == Some(startup) && RotationOf(b).Ok?
  {
    BeginIsOpened(r, operation, m, startup, creator);
    OpenedIsValid(r, operation, m, startup, creator);
    hide BeginRecord, Valid, Upgrade, NewStartup, Staging;
  }

  lemma AdvancingShape(a: Record, b: Record)
    requires Valid(a) && AdvanceRecord(a) == Ok(b)
    ensures Valid(b) && SameRotation(a, b)
    ensures b.rotation.value.checkpoint.Index() == a.rotation.value.checkpoint.Index() + 1
  {
    assert RotationOf(a).Ok?;
    hide AdvanceRecord, Valid;
    AdvanceIsAt(a);
    AtIsValid(a, b.rotation.value.checkpoint);
  }

  lemma ClosingShape(a: Record, b: Record, retain: bool)
    requires Valid(a) && ClearRecord(a, retain) == Ok(b)
    ensures Valid(b) && ClosesFrom(a, b)
  {
    hide Resources, KeepResources, KeepCreators, Removed, SchemaShape, ProgressShape;
    assert ValidRotation(a.rotation.value, a.startup, a.config);
  }

  /** The only shapes a permitted step can take. */
  lemma StepShape(a: Record, b: Record)
    requires Valid(a) && PermitsIdentity(a, b)
    ensures Valid(b)
    ensures
      || a == b
      || OpensFrom(a, b)
      || (SameRotation(a, b)
          && b.rotation.value.checkpoint.Index() == a.rotation.value.checkpoint.Index() + 1)
      || ClosesFrom(a, b)
  {
    hide Valid, InitialSuccessor, ClearRecord, AdvanceRecord, OpensFrom, ClosesFrom, SameRotation;
    if a == b {
    } else if InitialSuccessor(a, b) == Ok(b) {
      OpeningShape(a, b);
    } else if AdvanceRecord(a) == Ok(b) {
      AdvancingShape(a, b);
    } else if ClearRecord(a, true) == Ok(b) {
      ClosingShape(a, b, true);
    } else {
      ClosingShape(a, b, false);
    }
  }

  /**
   The shape of every record on a path from an idle record: at most one rotation,
   its completed effects the prefix its checkpoint names, its direction forward
   exactly from revocation, its configuration the target exactly from publication.
   */
  lemma PathShape(p: seq<Record>, i: nat)
    requires i < |p| && Path(p) && Valid(p[0])
    ensures Valid(p[i])
    ensures p[i].rotation.Some? ==>
      var v := p[i].rotation.value;
      && p[i].enablement.None? && p[i].link.None? && p[i].repair.None?
      && v.completed == EFFECTS[..v.checkpoint.Index()]
      && (v.direction == Forward <==> v.checkpoint.Index() >= Revoked.Index())
      && (p[i].config == v.target <==> v.checkpoint.Index() >= TargetPublished.Index())
      && (p[i].config == v.source <==> v.checkpoint.Index() < TargetPublished.Index())
  {
    if i > 0 {
      hide Valid, PermitsIdentity;
      PathValid(p, i);
    }
    OpenShape(p[i]);
  }

  lemma OpenShape(r: Record)
    requires Valid(r)
    ensures r.rotation.Some? ==>
      var v := r.rotation.value;
      && r.enablement.None? && r.link.None? && r.repair.None?
      && v.completed == EFFECTS[..v.checkpoint.Index()]
      && (v.direction == Forward <==> v.checkpoint.Index() >= Revoked.Index())
      && (r.config == v.target <==> v.checkpoint.Index() >= TargetPublished.Index())
      && (r.config == v.source <==> v.checkpoint.Index() < TargetPublished.Index())
  {
    hide Resources, SchemaShape, ProgressShape;
  }

  lemma {:induction false} PathValid(p: seq<Record>, i: nat)
    requires i < |p| && Path(p) && Valid(p[0])
    ensures Valid(p[i])
  {
    hide Valid, PermitsIdentity;
    if i > 0 {
      PathValid(p, i - 1);
      StepShape(p[i - 1], p[i]);
    }
  }

  predicate SawRevocation(p: seq<Record>, n: nat)
    requires n <= |p|
  {
    exists i :: 0 <= i < n && p[i].rotation.Some? && p[i].rotation.value.checkpoint == Revoked
  }

  /** Inside one open rotation, being past revocation means revocation was recorded. */
  lemma {:induction false} RevocationIsVisited(p: seq<Record>, i: nat)
    requires Path(p) && 0 < i < |p| && Valid(p[0]) && p[0].rotation.None?
    requires forall j :: 0 < j <= i ==> p[j].rotation.Some?
    ensures Valid(p[i]) && SameRotation(p[1], p[i]) && p[i].rotation.value.source == p[0].config
    ensures p[i].rotation.value.checkpoint.Index() >= 8 <==> SawRevocation(p, i + 1)
    decreases i
  {
    hide Valid, PermitsIdentity;
    PathValid(p, i - 1);
    StepShape(p[i - 1], p[i]);
    if i > 1 {
      RevocationIsVisited(p, i - 1);
      var v := p[i].rotation.value.checkpoint;
      if SawRevocation(p, i) {
        var j :| 0 <= j < i && p[j].rotation.Some? && p[j].rotation.value.checkpoint == Revoked;
        assert SawRevocation(p, i + 1);
      } else if v == Revoked {
        assert SawRevocation(p, i + 1);
      }
    }
  }

  /**
   Main result on paths: a rotation that opens from an idle record and later
   closes leaves the target configuration if and only if the path recorded the
   revocation of the source, and otherwise leaves the source configuration.
   */
  lemma ClosedPathSelects(p: seq<Record>)
    requires Path(p) && |p| >= 3 && Valid(p[0])
    requires p[0].rotation.None? && p[|p| - 1].rotation.None?
    requires forall j :: 0 < j < |p| - 1 ==> p[j].rotation.Some?
    ensures var v := p[1].rotation.value;
      && v.source == p[0].config && v.source != v.target
      && (p[|p| - 1].config == v.target <==> SawRevocation(p, |p|))
      && (p[|p| - 1].config == p[0].config <==> !SawRevocation(p, |p|))
  {
    var n := |p| - 1;
    hide Valid, PermitsIdentity;
    PathValid(p, 1);
    OpenShape(p[1]);
    PathValid(p, n - 1);
    RevocationIsVisited(p, n - 1);
    RevocationIsVisited(p, 1);
    StepShape(p[n - 1], p[n]);
    assert SawRevocation(p, n) <==> SawRevocation(p, n + 1);
  }
}
