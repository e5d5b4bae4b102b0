/**
 Why the protocols may trust their journals. Each protocol describes the store by
 what it shows and what else a power loss may bring back; here every outcome of the
 store's own publication, and every disk that survives it, is one of those.
 */
module Journals {
  import opened Wrappers
  import opened Records
  import opened Octets
  import opened Durable
  import opened Store
  import RotationEffects
  import RotationWorld
  import RemovalPlan
  import RemovalHost
  import RemovalRuns
  import SetupPlan
  import TunnelSetup
  import SetupRuns

  // ----- Views of a disk --------------------------------------------------------------

  /** What the two record files hold, as a reader tells them apart. */
  datatype View = View(current: Option<Content>, staged: Option<Content>)

  /** Exactly the encoding of a record, or something else. */
  function Read(au: Authority<Record>, bytes: Bytes): (c: Content)
    ensures c.Canonical? ==> au.encode(c.record) == Some(bytes)
  {
    match au.decode(bytes)
    case Some(r) => if au.encode(r) == Some(bytes) then Canonical(r) else Torn
    case None => Torn
  }

  function Reads(au: Authority<Record>, content: Option<Bytes>): (c: Option<Content>)
    ensures c.Some? == content.Some?
  {
    if content.None? then None else Some(Read(au, content.value))
  }

  function ViewOf(au: Authority<Record>, disk: Disk): (view: View) {
    View(Reads(au, disk.current), Reads(au, disk.staged))
  }

  function Lift(r: Option<Record>): (found: Option<Content>) { if r.Some? then Some(Canonical(r.value)) else None }

  function Encoded(au: Authority<Record>, r: Option<Record>): (found: Option<Bytes>) {
    if r.Some? then au.encode(r.value) else None
  }

  /** The beginning of some encoding; all a stage ever holds. */
  ghost predicate Beginning(au: Authority<Record>, bytes: Bytes) {
    exists r :: au.encode(r).Some? && bytes <= au.encode(r).value
  }

  /** What a power loss may leave: what is shown, with any part of its stage, or something older. */
  function Left(v: View, others: set<View>): (members: set<View>) {
    others + {v, v.(staged := None)} + (if v.staged.Some? then {v.(staged := Some(Torn))} else {})
  }

  /** The store shows v, and a power loss leaves nothing but v, parts of it, and others. */
  ghost predicate Shown(au: Authority<Record>, fs: Fs, v: View, others: set<View>) {
    && WellFormed(fs) && ViewOf(au, Visible(fs)) == v
    && (Visible(fs).staged.Some? ==> Beginning(au, Visible(fs).staged.value))
    && forall disk :: Survives(fs, disk) ==> ViewOf(au, disk) in Left(v, others)
  }

  lemma ReadsEncoded(au: Authority<Record>, r: Record)
    requires Lawful(au) && au.encode(r).Some?
    ensures Read(au, au.encode(r).value) == Canonical(r)
  {
  }

  lemma ReadsLift(au: Authority<Record>, content: Option<Bytes>, r: Option<Record>)
    requires Lawful(au) && (r.Some? ==> au.encode(r.value).Some?)
    ensures Reads(au, content) == Lift(r) <==> content == Encoded(au, r)
  {
    if r.Some? {
      ReadsEncoded(au, r.value);
    }
  }

  /** A shorter beginning of an encoding is no encoding. */
  lemma PartReads(au: Authority<Record>, whole: Bytes, part: Bytes)
    requires Lawful(au) && Beginning(au, whole) && part <= whole
    ensures Beginning(au, part)
    ensures Read(au, part) == Torn || part == whole
  {
    var r :| au.encode(r).Some? && whole <= au.encode(r).value;
    assert part <= au.encode(r).value;
  }

  // ----- One publication ---------------------------------------------------------------

  /** The views a rename leaves possible until the directory is synchronized. */
  function Crossed(expected: Option<Record>, next: Record): (members: set<View>) {
    {View(Lift(expected), None), View(Lift(expected), Some(Torn)), View(Lift(expected), Some(Canonical(next)))}
  }

  /** What publishing next over expected may make of a view and of what else may come back. */
  predicate Outcomes(v: View, others: set<View>, expected: Option<Record>, next: Record, x: View, rest: set<View>) {
    || (x == v && rest == others)
    || (v == View(Lift(expected), None) && x == v.(staged := Some(Torn)) && rest == others)
    || (v.current == Lift(expected) && v.staged in {None, Some(Canonical(next))}
        && (|| (x == v.(staged := Some(Canonical(next))) && rest == others)
            || (x == View(Some(Canonical(next)), None) && (rest == others + Crossed(expected, next) || rest == {}))))
  }

  /** Nothing visible has changed. */
  lemma KeptShown(au: Authority<Record>, before: Fs, fs: Fs, v: View, others: set<View>, expected: Option<Bytes>,
                  bytes: Bytes)
    requires Lawful(au) && Shown(au, before, v, others) && Follows(before, expected, bytes, fs)
    requires Visible(fs) == Visible(before) && Visible(fs).current == expected && Visible(fs) != Disk(Some(bytes), None)
    ensures Shown(au, fs, v, others)
  {
    forall disk | Survives(fs, disk) ensures ViewOf(au, disk) in Left(v, others) {
      if !Survives(before, disk) && disk != Visible(fs) {
        PartReads(au, Visible(fs).staged.value, disk.staged.value);
      }
    }
  }

  /** A stage has been started where there was none. */
  lemma StagedShown(au: Authority<Record>, before: Fs, fs: Fs, v: View, others: set<View>, expected: Option<Bytes>,
                    next: Record)
    requires Lawful(au) && Shown(au, before, v, others) && au.encode(next).Some?
    requires Follows(before, expected, au.encode(next).value, fs)
    requires Visible(before) == Disk(expected, None) && Visible(fs).current == expected
    requires Visible(fs).staged.Some? && Visible(fs).staged.value <= au.encode(next).value
    ensures var staged := Read(au, Visible(fs).staged.value);
      && Shown(au, fs, v.(staged := Some(staged)), others)
      && staged in {Torn, Canonical(next)}
  {
    var bytes := au.encode(next).value;
    var x := v.(staged := Some(Read(au, Visible(fs).staged.value)));
    assert Beginning(au, bytes);
    PartReads(au, bytes, Visible(fs).staged.value);
    ReadsEncoded(au, next);
    forall disk | Survives(fs, disk) ensures ViewOf(au, disk) in Left(x, others) {
      if Survives(before, disk) {
        assert ViewOf(au, disk) in Left(v, others);
        assert v == x.(staged := None);
      } else if disk != Visible(fs) {
        PartReads(au, Visible(fs).staged.value, disk.staged.value);
      }
    }
  }

  /** The stage has been renamed. */
  lemma RenamedShown(au: Authority<Record>, before: Fs, fs: Fs, v: View, others: set<View>, expected: Option<Record>,
                     next: Record)
    requires Lawful(au) && Shown(au, before, v, others) && au.encode(next).Some?
    requires Follows(before, Encoded(au, expected), au.encode(next).value, fs)
    requires v.current == Lift(expected) && v.staged in {None, Some(Canonical(next))}
    requires expected.Some? ==> au.encode(expected.value).Some?
    requires Visible(fs) == Disk(au.encode(next), None)
    ensures Shown(au, fs, View(Some(Canonical(next)), None), others + Crossed(expected, next))
    ensures Settled(fs) ==> Shown(au, fs, View(Some(Canonical(next)), None), {})
  {
    var bytes := au.encode(next).value;
    var x := View(Some(Canonical(next)), None);
    var rest := others + Crossed(expected, next);
    ReadsEncoded(au, next);
    ReadsLift(au, Encoded(au, expected), expected);
    assert Beginning(au, bytes);
    forall disk | Survives(fs, disk) ensures ViewOf(au, disk) in Left(x, rest) {
      if Survives(before, disk) {
        assert ViewOf(au, disk) in Left(v, others);
      } else if disk != Visible(fs) {
        PartReads(au, bytes, disk.staged.value);
      }
    }
    if Settled(fs) {
      forall disk | Survives(fs, disk) ensures ViewOf(au, disk) in Left(x, {}) {
        SettledSurvives(fs, disk);
      }
    }
  }

  /** The outcome of any publication, read off the disk it leaves. */
  lemma PublicationShown(au: Authority<Record>, before: Fs, fs: Fs, v: View, others: set<View>,
                         expected: Option<Record>, next: Record)
    returns (x: View, rest: set<View>)
    requires Lawful(au) && Shown(au, before, v, others) && v.current == Lift(expected)
    requires au.encode(next).Some? && (expected.Some? ==> au.encode(expected.value).Some?)
    requires Follows(before, Encoded(au, expected), au.encode(next).value, fs)
    requires Advances(Visible(before), Encoded(au, expected), au.encode(next).value, Visible(fs))
    ensures Shown(au, fs, x, rest) && Outcomes(v, others, expected, next, x, rest)
    ensures Settled(fs) && Visible(fs) == Disk(au.encode(next), None) ==>
      x == View(Some(Canonical(next)), None) && rest == {}
  {
    assert WellFormed(fs);
    hide Follows, Shown, Lawful;
    ShownReads(au, before, v, others);
    ReadsLift(au, Visible(before).current, expected);
    ReadsLift(au, Visible(before).staged, None);
    ReadsLift(au, Visible(before).staged, Some(next));
    if Visible(fs) == Disk(au.encode(next), None) {
      RenamedShown(au, before, fs, v, others, expected, next);
      x := View(Some(Canonical(next)), None);
      rest := if Settled(fs) then {} else others + Crossed(expected, next);
    } else if Visible(fs) == Visible(before) {
      KeptShown(au, before, fs, v, others, Encoded(au, expected), au.encode(next).value);
      x, rest := v, others;
    } else {
      StagedShown(au, before, fs, v, others, Encoded(au, expected), next);
      x, rest := v.(staged := Some(Read(au, Visible(fs).staged.value))), others;
    }
  }

  lemma ShownReads(au: Authority<Record>, fs: Fs, v: View, others: set<View>)
    requires Shown(au, fs, v, others)
    ensures WellFormed(fs) && v == ViewOf(au, Visible(fs))
  {
  }

  /** A synchronized record is the only one a power loss can leave. */
  lemma SynchronizedShown(au: Authority<Record>, before: Fs, fs: Fs, v: View, others: set<View>, current: Option<Bytes>)
    requires Lawful(au) && Shown(au, before, v, others) && WellFormed(fs)
    requires Visible(fs) == Visible(before) && |fs.dirs| == 1
    requires Visible(fs).current == current
    requires forall content :: SurvivesCurrent(fs, content) ==> content == current
    ensures Shown(au, fs, v, {})
  {
    forall disk | Survives(fs, disk) ensures ViewOf(au, disk) in Left(v, {}) {
      assert SurvivesAt(fs, 0, disk);
      OldCurrent(fs, 0, disk.current);
      if disk.staged.Some? {
        PartReads(au, Visible(fs).staged.value, disk.staged.value);
      }
    }
  }

  lemma NarrowedShown(au: Authority<Record>, before: Fs, fs: Fs, v: View, others: set<View>)
    requires Shown(au, before, v, others) && WellFormed(fs) && Visible(fs) == Visible(before)
    requires forall disk :: Survives(fs, disk) ==> Survives(before, disk)
    ensures Shown(au, fs, v, others)
  {
  }

  /** The store's publication, in terms of views. */
  method Publish(store: OwnershipStore<Record>, expected: Option<Record>, next: Record,
                 ghost v: View, ghost others: set<View>)
    returns (o: Outcome, ghost x: View, ghost rest: set<View>)
    requires store.Valid() && Shown(store.authority, store.fs, v, others) && v.current == Lift(expected)
    requires store.authority.encode(next).Some? && (expected.Some? ==> store.authority.encode(expected.value).Some?)
    modifies store
    ensures store.Valid() && Shown(store.authority, store.fs, x, rest)
    ensures Outcomes(v, others, expected, next, x, rest)
    ensures o.Done? ==> x == View(Some(Canonical(next)), None) && rest == {}
  {
    hide Shown, Follows, Advances, Outcomes, Admitted, Contained;
    ghost var before := store.fs;
    o := store.Publish(Encoded(store.authority, expected), next);
    x, rest := PublicationShown(store.authority, before, store.fs, v, others, expected, next);
  }

  /** The store's synchronization, in terms of views. */
  method Synchronize(store: OwnershipStore<Record>, r: Record, ghost v: View, ghost others: set<View>)
    returns (o: Outcome)
    requires store.Valid() && Shown(store.authority, store.fs, v, others) && store.authority.encode(r).Some?
    modifies store
    ensures store.Valid() && Shown(store.authority, store.fs, v, if o.Done? then {} else others)
    ensures o.Done? ==> v.current == Some(Canonical(r))
  {
    hide Shown;
    ghost var before := store.fs;
    ReadsLift(store.authority, Visible(before).current, Some(r));
    ShownReads(store.authority, before, v, others);
    o := store.Synchronize(store.authority.encode(r).value);
    if o.Done? {
      SynchronizedShown(store.authority, before, store.fs, v, others, store.authority.encode(r));
    } else {
      NarrowedShown(store.authority, before, store.fs, v, others);
    }
  }

  // ----- The rotation's journal ---------------------------------------------------------

  function JournalView(j: RotationWorld.Journal): (view: View) { View(Some(Canonical(j.current)), j.staged) }

  function JournalOthers(j: RotationWorld.Journal): (members: set<View>) {
    if j.synced then {} else Crossed(Some(j.fallback), j.current)
  }

  /** Every outcome of a publication is one the rotation reckons with. */
  lemma RotationPublishes(j: RotationWorld.Journal, next: Record, x: View, rest: set<View>)
    returns (k: RotationWorld.Journal)
    requires j.synced && Outcomes(JournalView(j), JournalOthers(j), Some(j.current), next, x, rest)
    ensures RotationEffects.Publishes(j, next, k) && JournalView(k) == x && JournalOthers(k) == rest
  {
    if x.current == Some(Canonical(next)) && x.staged.None? && rest != JournalOthers(j) {
      k := RotationWorld.Journal(next, None, false, j.current);
    } else if x.current == Some(Canonical(next)) && x.staged.None? {
      k := if x == JournalView(j) then j else RotationWorld.Journal(next, None, true, next);
    } else {
      k := j.(staged := x.staged);
    }
  }

  /** And so is every disk a power loss leaves. */
  lemma RotationLosesPower(j: RotationWorld.Journal, v: View) returns (k: RotationWorld.Journal)
    requires v in Left(JournalView(j), JournalOthers(j))
    ensures RotationWorld.FallsBack(j, k) && JournalView(k) == v && JournalOthers(k) == {}
  {
    k := RotationWorld.Journal(v.current.value.record, v.staged, true, v.current.value.record);
  }

  /** A publication of the rotation's record is one the rotation reckons with. */
  method PublishJournal(store: OwnershipStore<Record>, current: Record, next: Record, ghost j: RotationWorld.Journal)
    returns (o: Outcome, ghost k: RotationWorld.Journal)
    requires store.Valid() && j.synced && j.current == current
    requires Shown(store.authority, store.fs, JournalView(j), JournalOthers(j))
    requires store.authority.encode(next).Some? && store.authority.encode(j.current).Some?
    modifies store
    ensures store.Valid() && Shown(store.authority, store.fs, JournalView(k), JournalOthers(k))
    ensures RotationEffects.Publishes(j, next, k)
    ensures o.Done? ==> k.current == next && k.staged.None? && JournalOthers(k) == {}
  {
    hide Shown, Outcomes, RotationEffects.Publishes;
    ghost var x, rest;
    o, x, rest := Publish(store, Some(current), next, JournalView(j), JournalOthers(j));
    k := RotationPublishes(j, next, x, rest);
  }

  // ----- The removal's authority --------------------------------------------------------

  function AuthorityView(a: RemovalPlan.Authority): (view: View) { View(a.current, a.staged) }

  function AuthorityOthers(w: RemovalHost.World): (members: set<View>) {
    set a | a in w.alternatives && a.finalizer.None? :: AuthorityView(a)
  }

  function AuthorityOf(v: View): (authority: RemovalPlan.Authority) { RemovalPlan.Authority(v.current, v.staged, None) }

  lemma RemovalPublishes(w: RemovalHost.World, expected: Option<Record>, next: Record, x: View, rest: set<View>)
    returns (y: RemovalHost.World)
    requires w.shown.finalizer.None?
    requires Outcomes(AuthorityView(w.shown), AuthorityOthers(w), expected, next, x, rest)
    ensures RemovalHost.Publishes(w, expected, next, y)
    ensures y.shown == AuthorityOf(x) && AuthorityOthers(y) == rest
  {
    var renamed := set v | v in Crossed(expected, next) :: AuthorityOf(v);
    var alternatives :=
      if rest == AuthorityOthers(w) then w.alternatives
      else if rest == {} then {}
      else w.alternatives + renamed;
    y := RemovalHost.World(AuthorityOf(x), alternatives, w.present);
    if alternatives == w.alternatives + renamed {
      assert forall v :: v in Crossed(expected, next) ==>
        AuthorityOf(v) in renamed && AuthorityView(AuthorityOf(v)) == v;
    }
  }

  lemma RemovalLosesPower(w: RemovalHost.World, v: View) returns (y: RemovalHost.World)
    requires w.shown.finalizer.None?
    requires v in Left(AuthorityView(w.shown), AuthorityOthers(w))
    ensures RemovalRuns.LosesPower(w, y) && y.shown == AuthorityOf(v)
  {
    y := RemovalHost.World(AuthorityOf(v), {}, w.present);
    if v in AuthorityOthers(w) {
      var a :| a in w.alternatives && a.finalizer.None? && AuthorityView(a) == v;
      assert a == AuthorityOf(v);
    }
  }

  // ----- The setup's files ----------------------------------------------------------------

  function SnapshotView(s: TunnelSetup.Snapshot): (view: View) { View(Lift(s.current), s.staged) }

  function SnapshotOthers(w: TunnelSetup.World): (members: set<View>) { set s | s in w.alternatives :: SnapshotView(s) }

  function SnapshotOf(v: View): (snapshot: TunnelSetup.Snapshot) {
    TunnelSetup.Snapshot(if v.current.Some? && v.current.value.Canonical? then Some(v.current.value.record) else None,
                         v.staged)
  }

  lemma SetupPublishes(w: TunnelSetup.World, expected: Option<Record>, next: Record, x: View, rest: set<View>)
    returns (y: TunnelSetup.World)
    requires Outcomes(SnapshotView(w.shown), SnapshotOthers(w), expected, next, x, rest)
    ensures TunnelSetup.Publishes(w, expected, next, y)
    ensures SnapshotView(y.shown) == x && SnapshotOthers(y) == rest
  {
    var renamed := set v | v in Crossed(expected, next) :: SnapshotOf(v);
    var alternatives :=
      if rest == SnapshotOthers(w) then w.alternatives
      else if rest == {} then {}
      else w.alternatives + renamed;
    y := TunnelSetup.World(SnapshotOf(x), alternatives, w.present);
    if alternatives == w.alternatives + renamed {
      assert forall v :: v in Crossed(expected, next) ==> SnapshotOf(v) in renamed && SnapshotView(SnapshotOf(v)) == v;
    }
  }

  lemma SetupLosesPower(w: TunnelSetup.World, v: View, present: set<SetupPlan.Thing>)
    returns (y: TunnelSetup.World)
    requires v in Left(SnapshotView(w.shown), SnapshotOthers(w)) && SetupPlan.Boots(w.present, present)
    ensures SetupRuns.LosesPower(w, y) && SnapshotView(y.shown) == v && y.present == present
  {
    hide SetupPlan.Boots;
    if v in SnapshotOthers(w) {
      var s :| s in w.alternatives && SnapshotView(s) == v;
      y := TunnelSetup.World(s, {}, present);
    } else {
      y := TunnelSetup.World(w.shown.(staged := v.staged), {}, present);
    }
  }

  lemma VisibleSurvives(fs: Fs)
    requires WellFormed(fs)
    ensures Survives(fs, Visible(fs))
  {
    assert SurvivesAt(fs, |fs.dirs| - 1, Visible(fs));
  }

  /** Deleting an unstaged record leaves it or nothing. */
  lemma DeletionShown(au: Authority<Record>, before: Fs, fs: Fs, r: Record)
    requires Shown(au, before, View(Some(Canonical(r)), None), {}) && RemovalContained(before, fs)
    ensures ViewOf(au, Visible(fs)) in {View(Some(Canonical(r)), None), View(None, None)}
    ensures Shown(au, fs, ViewOf(au, Visible(fs)), {View(Some(Canonical(r)), None), View(None, None)})
  {
    var v, gone := View(Some(Canonical(r)), None), View(None, None);
    forall disk | Survives(fs, disk) ensures ViewOf(au, disk) in {v, gone} {
      assert MayLeaveRemoved(before, disk);
    }
    VisibleSurvives(fs);
  }

  /** The store's deletion is one the setup reckons with. */
  method Delete(store: OwnershipStore<Record>, r: Record, ghost w: TunnelSetup.World)
    returns (o: Outcome, ghost y: TunnelSetup.World)
    requires store.Valid() && w.shown == TunnelSetup.Snapshot(Some(r), None) && w.alternatives == {}
    requires Shown(store.authority, store.fs, SnapshotView(w.shown), SnapshotOthers(w))
    requires store.authority.encode(r).Some?
    modifies store
    ensures store.Valid() && TunnelSetup.Deletes(w, y)
    ensures Shown(store.authority, store.fs, SnapshotView(y.shown), SnapshotOthers(y))
    ensures o.Done? ==> y.shown == TunnelSetup.Snapshot(None, None)
  {
    hide Shown, RemovalContained;
    ghost var before, trace := store.fs, store.trace;
    ShownReads(store.authority, before, SnapshotView(w.shown), SnapshotOthers(w));
    assert SnapshotOthers(w) == {};
    o := store.RemoveCompletedCleanup(store.authority.encode(r).value);
    if |store.trace| == |trace| {
      assert store.fs == before;
      y := w;
    } else {
      DeletionShown(store.authority, before, store.fs, r);
      y := TunnelSetup.World(SnapshotOf(ViewOf(store.authority, Visible(store.fs))),
                             {w.shown, TunnelSetup.Snapshot(None, None)}, w.present);
      assert SnapshotOthers(y) == {SnapshotView(w.shown), View(None, None)} by {
        assert forall s :: s in y.alternatives ==> s == w.shown || s == TunnelSetup.Snapshot(None, None);
        assert w.shown in y.alternatives && TunnelSetup.Snapshot(None, None) in y.alternatives;
      }
    }
  }
}
