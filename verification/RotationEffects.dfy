/**
 What the host effects and the publications of a rotation may do to the world,
 and why every outcome, complete or interrupted, keeps it sound.
 */
module RotationEffects {
  import opened Wrappers
  import opened Records
  import opened IdentityRecords
  import IdentityHistory
  import opened RuntimeHandoff
  import opened RotationWorld

  datatype Effect =
    | PrepareTarget | PublishStartup | Reload | StopSource | PublishTarget | StartTarget
    | RestoreSource | FinishSubscription | RemoveTarget | CleanupStartup

  // ----- Observations -----------------------------------------------------------

  /** The host's inspection of recorded material. */
  predicate Inspectable(m: Machine, r: Record) {
    && RotationOf(r).Ok?
    && (if AtRevoked(r) then m.file == r.rotation.value.source || m.file == r.rotation.value.target
        else m.file == r.config)
    && (From(r, 8) && Before(r, 10) ==> m.material)
  }

  /** The proxy is observed running with the unit files that are on disk. */
  predicate Runs(m: Machine, r: Record) {
    m.proxy.Some? && m.loaded == m.dropIn && m.file == r.config
  }

  /** A one-use cutover gate can be prepared. */
  predicate Gateable(w: World) {
    var r, m := w.journal.current, w.machine;
    && w.journal.staged.None? && m.dropIn && m.loaded && m.file == r.config
    && CutoverConfiguration(r).Ok? && CutoverConfiguration(r).value.Some?
  }

  // ----- Effects ----------------------------------------------------------------

  /** The checkpoints at which each effect belongs. */
  predicate Belongs(e: Effect, c: Checkpoint) {
    match e
    case PrepareTarget => c == Authorized
    case PublishStartup => c == TargetPrepared
    case Reload => c == IntegrationPublished
    case StopSource => c == Gated
    case PublishTarget => c == Revoked
    case StartTarget => c == TargetPublished
    case RestoreSource => c.Index() < 8
    case FinishSubscription => c.Index() < 8 || c == TargetStarted
    case RemoveTarget => c.Index() < 8 || c == TargetStarted
    case CleanupStartup => c.Index() < 8
  }

  /** When the host can carry the effect out. */
  predicate Admits(e: Effect, w: World, material: Option<string>)
    requires w.journal.current.rotation.Some?
  {
    var r, m := w.journal.current, w.machine;
    var v := r.rotation.value;
    && Inspectable(m, r)
    && match e
       case PrepareTarget => material == Some(v.target)
       case StopSource => Gateable(w)
       case PublishTarget => m.material
       case StartTarget => Gateable(w)
       case RestoreSource =>
         || Runs(m, r)
         || (if CutoverConfiguration(r).Ok? && CutoverConfiguration(r).value.Some? then Gateable(w)
             else w.journal.staged.None? && m.loaded
                  && AuthorizesProxyStart(r, m.file, m.dropIn, true, true, None))
       case FinishSubscription =>
         r.serving.Some? ==>
           && m.file == (if v.checkpoint.Index() >= 8 then v.target else v.source)
           && (m.subscription == Some(m.file)
               || (w.journal.staged.None? && SelectHttpAuthority(r, true).Ok?))
       case _ => true
  }

  function Applied(e: Effect, m: Machine, r: Record): (machine: Machine)
    requires r.rotation.Some?
  {
    match e
    case PrepareTarget => m.(material := true)
    case PublishStartup => m.(dropIn := true)
    case Reload => m.(loaded := m.dropIn)
    case StopSource => m.(proxy := None, subscription := if r.serving.Some? then None else m.subscription)
    case PublishTarget => m.(file := r.rotation.value.target, fileSynced := true)
    case StartTarget => m.(proxy := if m.proxy.Some? then m.proxy else Some(m.file))
    case RestoreSource => m.(proxy := if m.proxy.Some? then m.proxy else Some(m.file))
    case FinishSubscription => m.(subscription := if r.serving.Some? then Some(m.file) else m.subscription)
    case RemoveTarget => m.(material := false)
    case CleanupStartup => m.(dropIn := false, loaded := false)
  }

  /** An effect that fails may leave any part of itself behind. */
  predicate Partly(e: Effect, m: Machine, r: Record, n: Machine)
    requires r.rotation.Some?
  {
    var a := Applied(e, m, r);
    && (n.file == m.file || n.file == a.file)
    && (n.fileSynced == m.fileSynced || e == PublishTarget)
    && (n.material == m.material || n.material == a.material)
    && (n.dropIn == m.dropIn || n.dropIn == a.dropIn)
    && (n.loaded == m.loaded || n.loaded == a.loaded)
    && (n.proxy == m.proxy || n.proxy == a.proxy)
    && (n.subscription == m.subscription || n.subscription == a.subscription)
  }

  /** No pending publication that relies on what the effect changes. */
  predicate Clean(j: Journal, e: Effect) {
    j.staged.Some? ==>
      && j.staged.value.Canonical?
      && (j.staged.value.record == j.current || (j.staged.value.record.rotation.None? && e == FinishSubscription))
  }

  lemma EffectKeepsHolds(e: Effect, m: Machine, r: Record, n: Machine)
    requires Fits(m, r) && r.rotation.Some? && Belongs(e, r.rotation.value.checkpoint)
    requires Partly(e, m, r, n) || n == Applied(e, m, r)
    ensures Holds(n, r)
  {
    hide Valid;
    IdentityHistory.OpenShape(r);
  }

  /** Complete or interrupted, an effect at its checkpoint keeps the world sound. */
  lemma EffectKeepsSound(e: Effect, w: World, n: Machine)
    requires Sound(w) && w.journal.synced && Clean(w.journal, e)
    requires w.journal.current.rotation.Some? && Belongs(e, w.journal.current.rotation.value.checkpoint)
    requires Partly(e, w.machine, w.journal.current, n) || n == Applied(e, w.machine, w.journal.current)
    ensures Sound(w.(machine := n))
  {
    EffectKeepsHolds(e, w.machine, w.journal.current, n);
    hide Valid, Holds, Partly, Applied, Belongs;
  }

  // ----- Publications -----------------------------------------------------------

  /** What the store promises of publishing next over the current record. */
  predicate Publishes(j: Journal, next: Record, k: Journal) {
    || k == Journal(next, None, true, next)
    || k == j
    || (j.staged.None? && k == j.(staged := Some(Torn)))
    || ((j.staged.None? || j.staged == Some(Canonical(next))) && k == j.(staged := Some(Canonical(next))))
    || ((j.staged.None? || j.staged == Some(Canonical(next))) && k == Journal(next, None, false, j.current))
  }

  /** A permitted step keeps everything the machine depends on. */
  lemma StepKeeps(a: Record, b: Record)
    requires Valid(a) && PermitsIdentity(a, b) && a.phase == Running && a.direction == Idle
    requires a.rotation.Some? ==> a.startup.Some? && a.startup.value.dropIn == DROP_IN
    ensures Valid(b) && b.phase == Running && b.direction == Idle
    ensures b.rotation.Some? ==> b.startup.Some? && b.startup.value.dropIn == DROP_IN
    ensures b.serving == a.serving && b.enablement == a.enablement
  {
    IdentityHistory.StepShape(a, b);
    hide Valid, InitialSuccessor, AdvanceRecord, ClearRecord;
    if a == b {
    } else if InitialSuccessor(a, b) == Ok(b) {
      InitialKeeps(a, b);
    } else if AdvanceRecord(a) == Ok(b) {
      AdvanceKeeps(a, b);
    } else if ClearRecord(a, true) == Ok(b) {
      ClearKeeps(a, b, true);
    } else {
      ClearKeeps(a, b, false);
    }
  }

  lemma InitialKeeps(a: Record, b: Record)
    requires Valid(a) && InitialSuccessor(a, b) == Ok(b)
    ensures b.phase == Running && b.direction == Idle
    ensures b.startup.Some? && b.startup.value.dropIn == DROP_IN
    ensures b.serving == a.serving && b.enablement == a.enablement
  {
    hide Valid, BeginRecord;
    BeginKeeps(a, b.rotation.value.operation, MaterialOf(b.rotation.value),
               Integration(b.startup.value.directoryCreated), b.creators.value[|b.creators.value| - 1]);
  }

  lemma ClearKeeps(a: Record, b: Record, retain: bool)
    requires ClearRecord(a, retain) == Ok(b)
    ensures b.phase == Running && b.direction == Idle && b.rotation.None?
    ensures b.serving == a.serving && b.enablement == a.enablement
  {
    hide Valid, KeepResources, KeepCreators, Removed;
  }

  lemma BeginKeeps(a: Record, operation: string, m: Material, startup: Startup, creator: Release)
    requires Valid(a) && BeginRecord(a, operation, m, startup, creator).Ok?
    ensures var b := BeginRecord(a, operation, m, startup, creator).value;
      && b.phase == Running && b.direction == Idle && b.startup == Some(startup)
      && b.serving == a.serving && b.enablement == a.enablement
  {
    BeginIsOpened(a, operation, m, startup, creator);
    hide BeginRecord, Valid, NewStartup, Staging;
  }

  lemma AdvanceKeeps(a: Record, b: Record)
    requires AdvanceRecord(a) == Ok(b)
    ensures b.phase == Running && b.direction == Idle && b.startup == a.startup
    ensures b.serving == a.serving && b.enablement == a.enablement
  {
    hide Valid;
  }

  /** The new record describes the machine the moment it replaces the old one. */
  lemma StepFits(m: Machine, a: Record, b: Record)
    requires Fits(m, a) && PermitsIdentity(a, b) && Backs(m, a, b)
    ensures Fits(m, b) && SameAuthority(a, b)
  {
    hide Valid, PermitsIdentity;
    StepKeeps(a, b);
    IdentityHistory.StepShape(a, b);
    IdentityHistory.OpenShape(a);
    IdentityHistory.OpenShape(b);
  }

  /** Every outcome of publishing a permitted step the machine is ready for. */
  lemma PublishKeepsSound(w: World, next: Record, k: Journal)
    requires Sound(w) && w.journal.synced && PermitsIdentity(w.journal.current, next)
    requires Backs(w.machine, w.journal.current, next) && Publishes(w.journal, next, k)
    ensures Sound(w.(journal := k))
  {
    StepFits(w.machine, w.journal.current, next);
    hide Valid, Holds, PermitsIdentity, Backs, SameAuthority;
  }
}
