/**
 Whole histories of removal: interrupted runs, power losses, and exact-release
 members restored in between.
 */
module RemovalRuns {
  import opened Wrappers
  import opened Records
  import opened RemovalPlan
  import opened RemovalHost
  import opened Removal
  import Footprint
  import SetupPlan

  // ----- Between runs ---------------------------------------------------------------

  /** Any installation that has not committed a removal, or none at all, is where histories start. */
  lemma StartIsSound(current: Option<Record>, present: set<Effect>)
    requires current.Some? ==> Valid(current.value) && current.value.direction != Removal
    ensures Sound(World(Authority(Lift(current), None, None), {}, present), [])
  {
    hide Valid, Earned;
  }

  /** A power loss shows something the disk could hold, and then there are no alternatives. */
  predicate LosesPower(w: World, x: World) {
    && x.present == w.present && x.alternatives == {}
    && (|| x.shown in w.alternatives
        || x.shown in {w.shown, w.shown.(staged := None)}
        || (w.shown.staged.Some? && x.shown == w.shown.(staged := Some(Torn))))
  }

  lemma PowerLossKeepsSound(w: World, x: World, log: seq<Event>)
    requires Sound(w, log) && LosesPower(w, x)
    ensures Sound(x, log)
    ensures Irrevocable(w, log) ==> Irrevocable(x, log)
  {
    hide Earned, Valid;
    assert Trusted(w.shown.(staged := None), w.present, log);
    assert w.shown.staged.Some? ==> Trusted(w.shown.(staged := Some(Torn)), w.present, log);
    hide Trusted;
  }

  /** Brings back only what is missing of exactly the committed release. */
  method Restore(w: World, facts: LifecycleFacts, ghost log: seq<Event>) returns (x: World)
    requires Sound(w, log)
    requires facts.executable == (Executable in w.present) && facts.installed == (InstalledRecord in w.present)
    ensures Sound(x, log)
    ensures x.shown == w.shown && x.alternatives == w.alternatives
    ensures ExactRestoration(w.shown, facts).Ok? ==>
      x.present == w.present + {Executable, InstalledRecord}
      && FinishingRelease(Selected(w.shown).value.value.record) == Ok(facts.release)
    ensures ExactRestoration(w.shown, facts).Err? ==> x == w
  {
    x := w;
    var restoration := ExactRestoration(w.shown, facts);
    hide Sound, FinishingRelease;
    if restoration.Err? || restoration.value.None? {
      assert restoration.Ok? ==> w.present == w.present + {Executable, InstalledRecord};
      return;
    }
    var back := (if restoration.value.value.executable then {Executable} else {})
              + (if restoration.value.value.installed then {InstalledRecord} else {});
    assert w.present + back == w.present + {Executable, InstalledRecord};
    SoundKept(w, w.present + back, log, []);
    assert log + [] == log;
    x := w.(present := w.present + back);
  }

  method Interlude(w: World, ghost log: seq<Event>) returns (x: World)
    requires Sound(w, log) && Irrevocable(w, log)
    ensures Sound(x, log) && Irrevocable(x, log)
  {
    hide Sound, LosesPower, Committed, Acted;
    x := w;
    var y: World := *;
    if LosesPower(x, y) {
      PowerLossKeepsSound(x, y, log);
      x := y;
    }
    var release: Release := *;
    var valid: bool := *;
    x := Restore(x, LifecycleFacts(release, valid, Executable in x.present, InstalledRecord in x.present), log);
  }

  /** What can be observed before a fault-free finish that decides whether it completes. */
  predicate Finishable(w: World, executing: Release, owned: bool) {
    && owned && Goal(Finish, w.shown, executing).Ok?
    && Goal(Finish, w.shown, executing).value.direction == Removal
    && FinishingRelease(Goal(Finish, w.shown, executing).value) == Ok(executing)
    && Unobstructed(w.shown, w.present, Goal(Finish, w.shown, executing).value)
  }

  /** One run of either action by some executable, with any answer to the confirmation. */
  method Run(reliable: bool, w: World, ghost log: seq<Event>, executing: Release, owned: bool, action: Action,
             approved: bool)
    returns (x: World, outcome: Outcome, ghost after: seq<Event>)
    requires Sound(w, log) && Orderly(log) && Irrevocable(w, log)
    ensures Sound(x, after) && Orderly(after) && Irrevocable(x, after) && log <= after
    ensures outcome == Completed ==>
      && owned && Goal(action, w.shown, executing).Ok?
      && x.shown == NOTHING && x.alternatives == {}
      && AllAbsent(Goal(action, w.shown, executing).value, x.present)
    ensures outcome == Completed && action == Finish ==> Finishable(w, executing, owned)
    ensures (reliable && approved && action == Finish && Finishable(w, executing, owned)) ==> outcome == Completed
  {
    hide Sound, Orderly, AllAbsent, Selected, FinishingRelease, CommitRemoval, Unobstructed;
    var host := new Host(reliable, executing, owned, w, log);
    var session := new Session(host);
    var p := session.Review(action);
    if p.Err? {
      return w, Refused, log;
    }
    if action == Finish {
      FinisherIsRemoving(Goal(Finish, w.shown, executing).value);
    }
    outcome := session.Execute(p.value, approved);
    x := host.w;
    after := host.log;
  }

  lemma FinisherIsRemoving(r: Record)
    ensures FinishingRelease(r).Ok? ==> r.direction == Removal
  {
  }

  /**
   Any history of interrupted runs, power losses and restorations. Every record that
   is or could come back shown has earned its checkpoint, from the first effect on no
   record from before the commitment can come back, and a final fault-free run
   of the committed release completes exactly when it is finishable.
   */
  method History(start: World, runs: nat, finisher: Release, owned: bool)
    returns (last: World, final: World, outcome: Outcome, ghost log: seq<Event>)
    requires Sound(start, [])
    ensures Sound(last, log) && Sound(final, log) && Orderly(log) && Irrevocable(final, log)
    ensures outcome == Completed <==> Finishable(last, finisher, owned)
    ensures outcome == Completed ==>
      && Goal(Finish, last.shown, finisher).Ok?
      && final.shown == NOTHING && final.alternatives == {}
      && AllAbsent(Goal(Finish, last.shown, finisher).value, final.present)
  {
    hide Sound, Finishable, AllAbsent, Goal;
    last := start;
    log := [];
    assert Irrevocable(last, log);
    hide Irrevocable;
    for i := 0 to runs
      invariant Sound(last, log) && Orderly(log) && Irrevocable(last, log)
    {
      last := Interlude(last, log);
      var executing: Release := *;
      var found: bool := *;
      var action: Action := *;
      var approved: bool := *;
      var ended;
      last, ended, log := Run(false, last, log, executing, found, action, approved);
    }
    last := Interlude(last, log);
    ghost var before := log;
    final, outcome, log := Run(true, last, log, finisher, owned, Finish, true);
    SoundGrows(last, before, log);
  }

  lemma SoundGrows(w: World, log: seq<Event>, after: seq<Event>)
    requires Sound(w, log) && log <= after
    ensures Sound(w, after)
  {
    hide Trusted;
    SameReduces(w.present);
    SoundKept(w, w.present, log, after[|log|..]);
    assert log + after[|log|..] == after;
  }

  // ----- Where the promises stop ------------------------------------------------------

  /** The authority lets some removal be reviewed: a new one, or the committed one by its own release. */
  predicate Reviewable(a: Authority, executing: Release) {
    || Goal(Complete, a, executing).Ok?
    || (Goal(Finish, a, executing).Ok? && FinishingRelease(Goal(Finish, a, executing).value) == Ok(executing))
  }

  /**
   Whatever a failure in publishing a commitment leaves, with or without a power loss,
   can be reviewed again by the same release if and only if no stage is left.
   */
  lemma CommitStageBlocksReview(source: Option<Record>, finisher: Release, present: set<Effect>, x: World, y: World)
    requires CommitRemoval(source, finisher).Ok? && (source.Some? ==> Valid(source.value))
    requires Publishes(World(Authority(Lift(source), None, None), {}, present), source,
                       CommitRemoval(source, finisher).value, x)
    requires y == x || LosesPower(x, y)
    ensures Reviewable(y.shown, finisher) <==> y.shown.staged.None?
  {
    var r := CommitRemoval(source, finisher).value;
    CommitBinds(source, finisher);
    hide Valid, CommitRemoval, FinishingRelease;
    if y.shown.staged.Some? {
      StagedOverUncommitted(y.shown, source);
    } else {
      assert y.shown == Authority(Lift(source), None, None) || y.shown == Authority(Some(Canonical(r)), None, None);
    }
  }

  /** Only a committed removal tolerates a stage of its own. */
  lemma StagedOverUncommitted(a: Authority, source: Option<Record>)
    requires a.current == Lift(source) && a.finalizer.None? && a.staged.Some?
    requires source.Some? ==> source.value.direction != Removal
    requires a.staged.value.Canonical? ==> a.staged.value.record.direction == Removal
    ensures Selected(a).Err?
  {
  }

  // ----- From setup to removal --------------------------------------------------------

  /** The owned resource by which a record answers for what setup leaves on the machine. */
  function OwnedAs(r: Record, t: SetupPlan.Thing): (res: Resource) {
    match t
    case Artifact => BaseFile(2)
    case AptKey => BaseFile(3)
    case AptSource => BaseFile(5)
    case Package => BaseFile(7)
    case Hold => BaseFile(8)
    case StateDirectory => BaseFile(9)
    case Mask => BaseFile(10)
    case Enabled => BaseFile(10)
    case PackageIdentity => BaseFile(11)
    case ProxyActive => BaseFile(12)
    case Configuration => ConfigFile(r.config)
    case Checked => ConfigFile(r.config)
    case LockUnit => LockFile(0)
    case ConnectorUnit => TunnelFile(0)
    case ConnectorActive => TunnelFile(0)
  }

  /**
   Everything a tunnel setup may leave on the machine is owned by its record at every phase, and the
   removal of the finished installation plans an effect that takes it away.
   */
  lemma SetupIsRemoved(r: Record, t: SetupPlan.Thing, finisher: Release)
    requires Valid(r) && r.direction != Removal && r.package && r.lockUnit && r.tunnel.Some?
    ensures OwnedAs(r, t) in r.resources
    ensures !r.migration ==>
      && CommitRemoval(Some(r), finisher).Ok?
      && exists e :: e in Removers(OwnedAs(r, t)) && Planned(CommitRemoval(Some(r), finisher).value, e)
  {
    SetupIsOwned(r, t);
    hide Valid, CommitRemoval, Planned, Removers, OwnedAs;
    if !r.migration {
      CommitBinds(Some(r), finisher);
      CommitKeepsOwned(r, finisher, OwnedAs(r, t));
      NotRecordFile(r, t);
      OwnedIsPlanned(CommitRemoval(Some(r), finisher).value, OwnedAs(r, t));
    }
  }

  lemma SetupIsOwned(r: Record, t: SetupPlan.Thing)
    requires Valid(r) && r.package && r.lockUnit && r.tunnel.Some?
    ensures OwnedAs(r, t) in r.resources
  {
    Footprint.OwnsExactly(r, OwnedAs(r, t));
    hide Valid, Footprint.ServesAt, Footprint.Prepares;
  }

  lemma NotRecordFile(r: Record, t: SetupPlan.Thing)
    ensures !RecordFile(OwnedAs(r, t))
  {
  }

  /** A commitment owns what the record before it did. */
  lemma CommitKeepsOwned(r: Record, finisher: Release, res: Resource)
    requires Valid(r) && r.direction != Removal && !r.migration && res in r.resources
    ensures CommitRemoval(Some(r), finisher).Ok?
    ensures !res.OwnershipFile? ==> res in CommitRemoval(Some(r), finisher).value.resources
  {
    CommitIsValid(r, finisher);
    CommitBinds(Some(r), finisher);
    var n := CommitRemoval(Some(r), finisher).value;
    hide Valid, CommitRemoval;
    Footprint.OwnsExactly(r, res);
    Footprint.OwnsExactly(n, res);
    hide Footprint.ServesAt, Footprint.Prepares;
  }

  // ----- What every history shows -----------------------------------------------------

  /** After commitment each publication is the next checkpoint of the same removal, by the same release. */
  lemma FinisherNeverChanges(log: seq<Event>, i: nat)
    requires Orderly(log) && i < |log| && log[i].Published?
    requires log[i].from.Some? && log[i].from.value.direction == Removal
    ensures var r, n := log[i].from.value, log[i].to;
      && r.removal < Limit(r) && n == r.(removal := r.removal + 1)
      && FinishingRelease(n) == FinishingRelease(r) && FinishingRelease(n).Ok?
  {
    assert InOrder(log[..i], log[i]);
    hide Valid, CommitRemoval;
  }

  /** What each recorded checkpoint of an installation's removal is worth, step by step. */
  lemma CheckpointMeans(r: Record, present: set<Effect>, log: seq<Event>)
    requires Earned(r, present, log) && r.package
    ensures r.removal >= 1 ==>
      && StopDisableProxy !in present && Observed(StopDisableProxy) in log
      && (forall e :: Called(r, e) ==> e !in present)
    ensures r.removal >= 2 ==>
      && PackageArtifact !in present && Observed(PackageArtifact) in log
      && (r.startup.Some? ==> ProxyStartup !in present)
    ensures r.removal >= 3 ==> PackageHold !in present && Observed(PackageHold) in log
    ensures r.removal >= 4 ==> Package !in present && Observed(Package) in log
    ensures r.removal >= 5 ==> ConfigurationState !in present && Observed(ConfigurationState) in log
    ensures r.removal >= 6 ==> PackageIdentity !in present && Observed(PackageIdentity) in log
    ensures r.removal >= 7 ==> AptSource !in present && Observed(AptSource) in log
    ensures r.removal >= 8 ==> AptKey !in present && Observed(AptKey) in log
    ensures r.removal >= 9 ==> ProxyAbsent(r, present) && Cleared in log
    ensures r.removal >= 10 ==> Observed(Executable) in log
    ensures r.removal >= 11 ==> Observed(InstalledRecord) in log
  {
    forall e | Called(r, e) ensures r.removal >= 1 ==> e !in present {
      CalledExactly(r, e);
    }
    hide AuxiliaryEffects, Called, ProxyAbsent;
    assert forall i :: 0 <= i < 8 && i < r.removal ==>
      PROXY_EFFECTS[i] !in present && Observed(PROXY_EFFECTS[i]) in log;
    assert PROXY_EFFECTS[0] == StopDisableProxy && PROXY_EFFECTS[1] == PackageArtifact;
    assert PROXY_EFFECTS[2] == PackageHold && PROXY_EFFECTS[3] == Package;
    assert PROXY_EFFECTS[4] == ConfigurationState && PROXY_EFFECTS[5] == PackageIdentity;
    assert PROXY_EFFECTS[6] == AptSource && PROXY_EFFECTS[7] == AptKey;
  }

  /** A shown finalizer holds a removal whose every step was observed absent. */
  lemma FinalizerIsFinished(w: World, log: seq<Event>)
    requires Sound(w, log) && w.shown.finalizer.Some?
    ensures w.shown.finalizer.value.Canonical?
    ensures var r := w.shown.finalizer.value.record;
      && r.direction == Removal && r.removal == Limit(r) && w.shown.current.None?
      && ProxyAbsent(r, w.present) && Cleared in log
      && Observed(Executable) in log && Observed(InstalledRecord) in log
      && (forall e :: r.package && e in PROXY_EFFECTS ==> Observed(e) in log)
  {
    var r := w.shown.finalizer.value.record;
    forall e | r.package && e in PROXY_EFFECTS ensures Observed(e) in log {
      var i :| 0 <= i < 8 && PROXY_EFFECTS[i] == e;
    }
    hide Valid, AuxiliaryEffects;
  }
}
