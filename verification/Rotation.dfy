/**
 The guarded runs of a Client Identity rotation: execute it, or finish one that
 was interrupted. A run stops at its first failure and leaves the rest to a later
 finish, which reads its direction from the durable record alone.
 */
module Rotation {
  import opened Wrappers
  import opened Records
  import opened IdentityRecords
  import IdentityHistory
  import opened RuntimeHandoff
  import opened RotationWorld
  import opened RotationEffects
  import opened RotationHost

  datatype Outcome = Rotated | Finished | CleanedUp

  /** Everything about the machine except which services are up. */
  predicate Static(m: Machine, n: Machine) {
    n == m.(proxy := n.proxy, subscription := n.subscription)
  }

  // ----- What the record steps give a run ----------------------------------------

  lemma Advanced(m: Machine, r: Record)
    requires Fits(m, r) && r.rotation.Some? && r.rotation.value.checkpoint != TargetStarted
    ensures AdvanceRecord(r).Ok?
    ensures var n := AdvanceRecord(r).value;
      && PermitsIdentity(r, n) && RotationOf(n).Ok? && n.serving == r.serving
      && IdentityHistory.SameRotation(r, n)
      && n.rotation.value.checkpoint.Index() == r.rotation.value.checkpoint.Index() + 1
  {
    AdvanceIsAt(r);
    var n := AdvanceRecord(r).value;
    IdentityHistory.AdvancingShape(r, n);
    AdvanceKeeps(r, n);
    hide Valid, AdvanceRecord, InitialSuccessor, ClearRecord;
    assert PermitsIdentity(r, n);
  }

  lemma Cleared(m: Machine, r: Record, retain: bool)
    requires Fits(m, r) && r.rotation.Some?
    requires Before(r, 8) || (r.rotation.value.checkpoint == TargetStarted && retain)
    ensures ClearRecord(r, retain).Ok?
    ensures var n := ClearRecord(r, retain).value;
      && PermitsIdentity(r, n) && n.rotation.None? && n.serving == r.serving && n.startup.Some? == retain
      && n.config == (if Before(r, 8) then r.rotation.value.source else r.rotation.value.target)
  {
    ClearIsClosed(r, retain);
    var n := ClearRecord(r, retain).value;
    IdentityHistory.ClosingShape(r, n, retain);
    ClearKeeps(r, n, retain);
    hide Valid, AdvanceRecord, InitialSuccessor, ClearRecord;
    assert PermitsIdentity(r, n);
  }

  /** The side recorded at each checkpoint. */
  lemma Recorded(m: Machine, r: Record)
    requires Fits(m, r) && r.rotation.Some?
    ensures r.config == (if From(r, 9) then r.rotation.value.target else r.rotation.value.source)
    ensures Inspectable(m, r) && RotationOf(r).Ok?
  {
    IdentityHistory.OpenShape(r);
    hide Valid;
  }

  // ----- Shared steps -------------------------------------------------------------

  /** The reviewed snapshot is still what is stored, and is durable. */
  method CheckedSnapshot(h: Host, expected: Snapshot) returns (ok: bool)
    requires h.Valid()
    modifies h`w, h`worlds
    ensures h.Valid() && Drifts(h.reliable, old(h.w), h.w)
    ensures ok ==> Visible(h.w.journal) == expected && Unstaged(expected) && h.w.journal.synced
    ensures h.reliable ==> (ok <==> old(Visible(h.w.journal)) == expected && Unstaged(expected))
  {
    hide Host.Valid;
    var seen := h.ReadSnapshot();
    if seen.Err? || seen.value != expected || !Unstaged(seen.value) {
      return false;
    }
    ok := h.Synchronize(expected.current);
  }

  method CheckedRetrySnapshot(h: Host, expected: Snapshot) returns (ok: bool)
    requires h.Valid()
    modifies h`w, h`worlds
    ensures h.Valid() && Drifts(h.reliable, old(h.w), h.w)
    ensures ok ==> Visible(h.w.journal) == expected && Retryable(expected) && h.w.journal.synced
    ensures h.reliable ==> (ok <==> old(Visible(h.w.journal)) == expected && Retryable(expected))
  {
    hide Host.Valid, PermitsIdentity;
    var seen := h.ReadSnapshot();
    if seen.Err? || seen.value != expected || !Retryable(seen.value) {
      return false;
    }
    ok := h.Synchronize(expected.current);
  }

  method PublishRecord(h: Host, current: Snapshot, next: Record) returns (ok: bool)
    requires h.Valid() && Visible(h.w.journal) == current
    requires PermitsIdentity(current.current, next) && Timely(h.trace, current.current, next)
    requires Founded(h.trace, current.current, next, false)
    requires Backs(h.w.machine, current.current, next)
    requires h.course.Some? ==> Allows(h.course.value, current.current, next)
    modifies h
    ensures h.Valid()
    ensures ok ==> Visible(h.w.journal) == Snapshot(next, None) && h.w.journal.synced
    ensures ok ==> Static(old(h.w.machine), h.w.machine)
    ensures ok && current.current != next ==> current.staged.None?
    ensures h.reliable ==> h.w.machine == old(h.w.machine)
    ensures h.reliable && current.staged.None? ==> ok
  {
    hide Host.Valid, PermitsIdentity, Founded;
    ok := CheckedSnapshot(h, current);
    if !ok {
      return;
    }
    DriftBacks(h.reliable, old(h.w), h.w, next);
    hide Backs, Sealed;
    ok := h.PublishNext(current.current, next, false);
    if !ok {
      return;
    }
    ok := Confirm(h, next);
  }

  /** A publication counts only once it reads back and is synchronized. */
  method Confirm(h: Host, next: Record) returns (ok: bool)
    requires h.Valid()
    modifies h`w, h`worlds
    ensures h.Valid() && Static(old(h.w.machine), h.w.machine)
    ensures ok ==> Visible(h.w.journal) == Snapshot(next, None) && h.w.journal.synced
    ensures h.reliable ==> h.w.machine == old(h.w.machine)
    ensures h.reliable && old(Visible(h.w.journal)) == Snapshot(next, None) ==> ok
  {
    hide Host.Valid;
    var seen := h.ReadSnapshot();
    if seen.Err? || seen.value != Snapshot(next, None) {
      return false;
    }
    ok := h.Synchronize(next);
  }

  method RunEffect(h: Host, current: Snapshot, e: Effect, material: Option<string>) returns (ok: bool)
    requires h.Valid() && Visible(h.w.journal) == current
    requires current.current.rotation.Some? && Belongs(e, current.current.rotation.value.checkpoint)
    requires EffectTimely(h.trace, e)
    modifies h
    ensures h.Valid()
    ensures ok ==> Since(h.trace, Succeeded(e))
    ensures forall x :: Since(old(h.trace), x) ==> Since(h.trace, x)
    ensures ok ==>
      && Visible(h.w.journal) == current && h.w.journal.synced && Unstaged(current)
      && Static(Applied(e, old(h.w.machine), current.current), h.w.machine)
    ensures h.reliable ==> (ok <==> Unstaged(current) && Admits(e, old(h.w), material))
    ensures h.reliable && ok ==> h.w.machine == Applied(e, old(h.w.machine), current.current)
  {
    hide Host.Valid, Admits, Applied, Belongs, Sealed, Inspectable, Since;
    var r := current.current;
    AdmitsInspects(e, h.w, material);
    ok := CheckedSnapshot(h, current);
    if !ok {
      return;
    }
    ok := h.Inspect(r);
    if !ok {
      return;
    }
    AppliedStatic(e, old(h.w.machine), h.w.machine, r);
    AdmitsSame(e, old(h.w), h.w, material);
    ghost var x := h.w;
    ok := h.Perform(e, r, material);
    if !ok {
      return;
    }
    PerformedStatic(h.reliable, e, x, h.w, r, material);
    ok := CheckedSnapshot(h, current);
  }

  lemma AdmitsInspects(e: Effect, w: World, material: Option<string>)
    requires w.journal.current.rotation.Some?
    ensures Admits(e, w, material) ==> Inspectable(w.machine, w.journal.current)
  {
    hide Inspectable, Gateable;
  }

  lemma AdmitsSame(e: Effect, w: World, x: World, material: Option<string>)
    requires w.journal.current.rotation.Some? && Visible(x.journal) == Visible(w.journal)
    ensures x.machine == w.machine ==> Admits(e, x, material) == Admits(e, w, material)
  {
    hide Inspectable, CutoverConfiguration;
  }

  lemma AppliedStatic(e: Effect, m: Machine, n: Machine, r: Record)
    requires r.rotation.Some? && Static(m, n)
    ensures Static(Applied(e, m, r), Applied(e, n, r))
  {
  }

  lemma PerformedStatic(reliable: bool, e: Effect, w: World, after: World, r: Record, material: Option<string>)
    requires r.rotation.Some?
    requires exists x: World :: Drifts(reliable, w, x) && x.journal == after.journal && x.journal.current.rotation.Some?
                      && Admits(e, x, material) && after.machine == Applied(e, x.machine, r)
    ensures Static(Applied(e, w.machine, r), after.machine)
    ensures reliable ==> after.machine == Applied(e, w.machine, r)
  {
    var x: World :| Drifts(reliable, w, x) && x.journal == after.journal && x.journal.current.rotation.Some?
                    && Admits(e, x, material) && after.machine == Applied(e, x.machine, r);
    AppliedStatic(e, w.machine, x.machine, r);
    hide Applied, Admits;
  }

  // ----- Going forward ------------------------------------------------------------

  /** The rotation is over and the machine is on one side, with nothing staged. */
  predicate Settled(w: World, config: string) {
    && w.journal.current.rotation.None? && w.journal.staged.None? && w.journal.synced
    && w.journal.current.config == config
    && w.machine.file == config
    && Vacated(w.machine, w.journal.current)
  }

  /** The recorded subscription runs on the side the file holds. */
  predicate Serves(m: Machine, r: Record) { r.serving.Some? ==> m.subscription == Some(m.file) }

  /** What a fault-free run needs in order to go forward to the end. */
  predicate Poised(m: Machine, r: Record) {
    && r.rotation.Some?
    && (Before(r, 8) ==> m.material)
    && match r.rotation.value.checkpoint
       case Authorized => false
       case TargetPrepared => true
       case IntegrationPublished => m.dropIn
       case Reloaded => m.dropIn && m.loaded
       case RouteVerified => m.dropIn && m.loaded
       case Gated => m.dropIn && m.loaded
       case Stopped => Silent(m)
       case Quiescent => Silent(m)
       case Revoked => true
       case TargetPublished => true
       case TargetStarted => Runs(m, r)
  }

  function EffectAt(c: Checkpoint): (found: Option<Effect>) {
    match c
    case TargetPrepared => Some(PublishStartup)
    case IntegrationPublished => Some(Reload)
    case Gated => Some(StopSource)
    case Revoked => Some(PublishTarget)
    case TargetPublished => Some(StartTarget)
    case _ => None
  }

  /** After the work of its checkpoint, the machine is ready for the next one. */
  predicate Worked(m: Machine, r: Record, t: seq<Event>)
    requires r.rotation.Some?
  {
    && (r.rotation.value.checkpoint != TargetStarted ==>
          Evident(t, FromIndex(r.rotation.value.checkpoint.Index() + 1).value))
    && match r.rotation.value.checkpoint
       case Quiescent => Silent(m) && |t| > 1 && t[|t| - 1].Accepted? && t[|t| - 2].Routed?
       case Revoked => m.file == r.rotation.value.target && m.fileSynced
       case _ => true
  }

  lemma WorkedIsReady(m: Machine, r: Record, n: Record, t: seq<Event>)
    requires r.rotation.Some? && n.rotation.Some? && Worked(m, r, t)
    requires n.rotation.value.checkpoint.Index() == r.rotation.value.checkpoint.Index() + 1
    ensures Timely(t, r, n) && Backs(m, r, n) && Founded(t, r, n, false)
  {
    NextCheckpoint(r.rotation.value.checkpoint, n.rotation.value.checkpoint);
    hide Evident, Since;
  }

  lemma NextCheckpoint(c: Checkpoint, d: Checkpoint)
    requires d.Index() == c.Index() + 1
    ensures c != TargetStarted && FromIndex(c.Index() + 1) == Ok(d)
  {
  }

  /** With no serving recorded, no subscription process can be running. */
  lemma NoSubscription(m: Machine, r: Record)
    requires Fits(m, r) && r.rotation.Some? && r.serving.None?
    ensures m.subscription.None?
  {
    IdentityHistory.OpenShape(r);
    hide Valid;
  }

  lemma NextPoised(e: Effect, m: Machine, n: Machine, r: Record, x: Record)
    requires Fits(m, r) && Poised(m, r) && EffectAt(r.rotation.value.checkpoint) == Some(e)
    requires n == Applied(e, m, r)
    requires x.rotation.Some? && x.rotation.value.checkpoint.Index() == r.rotation.value.checkpoint.Index() + 1
    requires x.rotation.value.target == r.rotation.value.target
    requires From(x, 9) ==> x.config == x.rotation.value.target
    ensures Poised(n, x)
  {
    Recorded(m, r);
    if r.serving.None? {
      NoSubscription(m, r);
    }
    hide Valid, Inspectable;
  }

  lemma PoisedAdmits(w: World)
    requires Fits(w.machine, w.journal.current) && Poised(w.machine, w.journal.current)
    requires w.journal.staged.None?
    ensures var c := w.journal.current.rotation.value.checkpoint;
      EffectAt(c).Some? ==> Admits(EffectAt(c).value, w, None)
  {
    Recorded(w.machine, w.journal.current);
    CutoverFollowsCheckpoint(w.journal.current);
    hide Valid, Inspectable, CutoverConfiguration;
  }

  lemma ValidCourse(h: Host)
    requires h.Valid() && h.course.Some?
    requires h.w.journal.staged.Some? && h.w.journal.staged.value.Canonical?
    ensures h.w.journal.current.rotation.Some? ==>
      Allows(h.course.value, h.w.journal.current, h.w.journal.staged.value.record)
  {
    hide Sound, Disciplined;
    match h.course.value.way
    case Some(Forward) =>
    case Some(Backward) =>
    case None =>
  }

  lemma ValidFits(h: Host)
    requires h.Valid()
    ensures Sound(h.w) && Fits(h.w.machine, h.w.journal.current)
  {
    assert Sound(h.worlds[|h.worlds| - 1]);
    hide Fits, Backs, Disciplined;
  }

  lemma PoisedRoutes(m: Machine, r: Record)
    requires Fits(m, r) && Poised(m, r)
    ensures From(r, 1) && (From(r, 4) ==> m.dropIn && m.loaded)
  {
    hide Valid;
  }

  lemma EffectWorks(e: Effect, m: Machine, n: Machine, r: Record, t: seq<Event>)
    requires r.rotation.Some? && EffectAt(r.rotation.value.checkpoint) == Some(e)
    requires Static(Applied(e, m, r), n)
    requires Since(t, Succeeded(e)) && (From(r, 4) ==> Since(t, Routed))
    ensures Worked(n, r, t) && n.material == m.material && From(r, 1)
  {
  }

  lemma QuietIsSilent(m: Machine, r: Record)
    requires Fits(m, r) && From(r, 6) && Before(r, 8)
    requires m.dropIn && m.loaded && m.material
    requires m.proxy.None? && (r.serving.Some? ==> m.subscription.None?)
    ensures Silent(m)
  {
    if r.serving.None? {
      NoSubscription(m, r);
    }
    hide Valid;
  }

  /** Checkpoints whose only work is to look. */
  method Observe(h: Host, r: Record) returns (ok: bool)
    requires h.Valid() && h.w.journal.current == r && RotationOf(r).Ok?
    requires Before(r, 8) && From(r, 1) ==> h.w.machine.material
    requires Before(r, 10) && EffectAt(r.rotation.value.checkpoint).None?
    requires From(r, 4) ==> h.w.machine.dropIn && h.w.machine.loaded
    requires From(r, 4) ==> |h.trace| > 0 && h.trace[|h.trace| - 1].Routed? && Since(h.trace, Routed)
    modifies h`w, h`worlds, h`trace
    ensures h.Valid() && Drifts(h.reliable, old(h.w), h.w) && h.w.journal == old(h.w.journal)
    ensures ok ==> Worked(h.w.machine, r, h.trace) && From(r, 1)
    ensures h.reliable && Poised(old(h.w.machine), r) ==> ok
  {
    hide Host.Valid, Inspectable, Sealed, Fits, Poised, Worked, Since;
    var c := r.rotation.value.checkpoint;
    PoisedLooks(h.w.machine, r);
    LooksOnly(h.w.machine, r, h.trace);
    ok := true;
    if c == Reloaded {
      ok := h.Routes(r);
      LooksOnly(h.w.machine, r, h.trace);
    } else if c == Stopped || c == Quiescent {
      ValidFits(h);
      Recorded(h.w.machine, r);
      ok := h.Quiescence(r);
      if ok {
        ValidFits(h);
        QuietIsSilent(h.w.machine, r);
        QuietWorks(h.w.machine, r, h.trace);
      }
    } else if c == Authorized {
      ok := false;
    }
  }

  lemma PoisedLooks(m: Machine, r: Record)
    ensures r.rotation.Some? && Poised(m, r) ==>
      && r.rotation.value.checkpoint != Authorized
      && (r.rotation.value.checkpoint == Reloaded ==> m.dropIn && m.loaded)
      && (r.rotation.value.checkpoint in {Stopped, Quiescent} ==> Silent(m))
  {
  }

  lemma LooksOnly(m: Machine, r: Record, t: seq<Event>)
    requires r.rotation.Some?
    ensures r.rotation.value.checkpoint in {Reloaded, RouteVerified} && Since(t, Routed) ==> Worked(m, r, t)
  {
    hide Since;
  }

  lemma QuietWorks(m: Machine, r: Record, t: seq<Event>)
    requires r.rotation.Some? && r.rotation.value.checkpoint in {Stopped, Quiescent} && Silent(m)
    requires |t| > 1 && t[|t| - 1].Accepted? && t[|t| - 2].Routed?
    requires Since(t, Routed) && Since(t, Accepted)
    ensures Worked(m, r, t)
  {
    hide Since;
  }

  /** The work of one checkpoint, after which the next may be published. */
  method Work(h: Host, current: Snapshot) returns (ok: bool)
    requires h.Valid() && Visible(h.w.journal) == current && current.staged.None?
    requires RotationOf(current.current).Ok? && Before(current.current, 10)
    requires Before(current.current, 8) && From(current.current, 1) ==> h.w.machine.material
    modifies h
    ensures h.Valid()
    ensures ok ==> Visible(h.w.journal) == current && From(current.current, 1)
    ensures ok ==> Worked(h.w.machine, current.current, h.trace)
    ensures ok ==> h.w.machine.material == old(h.w.machine.material)
    ensures h.reliable && Poised(old(h.w.machine), current.current) ==>
      && ok
      && h.w.machine == Done(old(h.w.machine), current.current)
  {
    hide Host.Valid, Poised, Worked, Applied, Inspectable, Admits, Sealed, Fits, Since;
    var r := current.current;
    ok := CheckedSnapshot(h, current);
    if !ok {
      return;
    }
    ValidFits(h);
    Recorded(h.w.machine, r);
    if Poised(h.w.machine, r) {
      PoisedRoutes(h.w.machine, r);
      PoisedAdmits(h.w);
    }
    ok := h.Inspect(r);
    if !ok {
      return;
    }
    if From(r, 4) {
      ok := h.Routes(r);
      if !ok {
        return;
      }
    }
    var e := EffectAt(r.rotation.value.checkpoint);
    ghost var m := h.w.machine;
    if e.Some? {
      ValidFits(h);
      if Poised(h.w.machine, r) {
        PoisedAdmits(h.w);
      }
      EffectBelongs(r.rotation.value.checkpoint);
      ok := RunEffect(h, current, e.value, None);
      if ok {
        EffectWorks(e.value, m, h.w.machine, r, h.trace);
      }
    } else {
      ok := Observe(h, r);
    }
  }

  lemma EffectBelongs(c: Checkpoint)
    ensures EffectAt(c).Some? ==> Belongs(EffectAt(c).value, c)
  {
  }

  /** The machine after the work of a checkpoint. */
  function Done(m: Machine, r: Record): (machine: Machine)
    requires r.rotation.Some?
  {
    var e := EffectAt(r.rotation.value.checkpoint);
    if e.Some? then Applied(e.value, m, r) else m
  }

  lemma DonePoised(m: Machine, r: Record, x: Record)
    requires Fits(m, r) && Poised(m, r) && Before(r, 10)
    requires x.rotation.Some? && x.rotation.value.checkpoint.Index() == r.rotation.value.checkpoint.Index() + 1
    requires x.rotation.value.target == r.rotation.value.target
    requires From(x, 9) ==> x.config == x.rotation.value.target
    ensures Poised(Done(m, r), x)
  {
    var e := EffectAt(r.rotation.value.checkpoint);
    if e.Some? {
      NextPoised(e.value, m, Done(m, r), r, x);
    } else {
      hide Valid;
    }
  }

  /** Ends a started rotation: the subscription, the staging, a last look, the record. */
  method Complete(h: Host, current: Snapshot) returns (ok: bool)
    requires h.Valid() && Visible(h.w.journal) == current && current.staged.None?
    requires RotationOf(current.current).Ok? && From(current.current, 10)
    modifies h
    ensures h.Valid()
    ensures ok ==> Settled(h.w, current.current.rotation.value.target)
    ensures h.reliable ==> (ok <==> Runs(old(h.w.machine), current.current))
    ensures h.reliable && ok ==> h.w.machine.proxy.Some? && Serves(h.w.machine, current.current)
  {
    hide Host.Valid, Fits, Applied, Admits, Sealed, Inspectable, Runs, Settled, Since, Serves;
    var r := current.current;
    ok := CheckedSnapshot(h, current);
    if !ok {
      return;
    }
    ValidFits(h);
    CompletionAdmits(h.w);
    ok := h.Inspect(r);
    if !ok {
      return;
    }
    ok := h.Routes(r);
    if !ok {
      return;
    }
    ok := h.VerifyRunning(r);
    if !ok {
      return;
    }
    ValidFits(h);
    CompletionAdmits(h.w);
    ghost var m := h.w.machine;
    ok := RunEffect(h, current, FinishSubscription, None);
    if !ok {
      return;
    }
    FinishKeepsRunning(m, r);
    FinishServes(m, h.w.machine, r);
    ok := Depart(h, current);
  }

  /** The last steps of a started rotation, once its subscription is settled. */
  method Depart(h: Host, current: Snapshot) returns (ok: bool)
    requires h.Valid() && Visible(h.w.journal) == current && current.staged.None?
    requires RotationOf(current.current).Ok? && From(current.current, 10)
    requires Served(h.trace)
    modifies h
    ensures h.Valid()
    ensures ok ==> Settled(h.w, current.current.rotation.value.target)
    ensures h.reliable && Runs(old(h.w.machine), current.current) ==> ok
    ensures h.reliable && ok ==> h.w.machine.proxy.Some?
    ensures h.reliable ==> Serves(old(h.w.machine), current.current) ==> ok ==> Serves(h.w.machine, current.current)
  {
    hide Host.Valid, Fits, Applied, Admits, Sealed, Inspectable, Since, Serves;
    var r := current.current;
    ValidFits(h);
    CompletionAdmits(h.w);
    FinishKeepsRunning(h.w.machine, r);
    ghost var m := h.w.machine;
    ok := RunEffect(h, current, RemoveTarget, None);
    if !ok {
      return;
    }
    RemovedIsGone(m, h.w.machine, r);
    ok := h.VerifyRunning(r);
    if !ok {
      return;
    }
    ValidFits(h);
    StartedFacts(h.w.machine, r);
    Cleared(h.w.machine, r, true);
    Recorded(h.w.machine, r);
    CompletionReady(h.w.machine, r, ClearRecord(r, true).value, h.trace);
    hide ClearRecord, PermitsIdentity, Backs;
    ok := PublishRecord(h, current, ClearRecord(r, true).value);
    if ok {
      ValidFits(h);
      SettledNow(h.w);
    }
  }

  lemma FinishServes(m: Machine, n: Machine, r: Record)
    requires r.rotation.Some?
    ensures n == Applied(FinishSubscription, m, r) ==> Serves(n, r)
  {
  }

  lemma RemovedIsGone(m: Machine, n: Machine, r: Record)
    requires r.rotation.Some? && Static(Applied(RemoveTarget, m, r), n)
    ensures !n.material && n.dropIn == m.dropIn && n.loaded == m.loaded
    ensures n == Applied(RemoveTarget, m, r) && Serves(m, r) ==> Serves(n, r)
  {
  }

  lemma StartedFacts(m: Machine, r: Record)
    requires Fits(m, r) && From(r, 10)
    ensures Valid(r) && r.phase == Running && m.dropIn && m.loaded
    ensures m.file == r.config && r.rotation.value.checkpoint == TargetStarted
  {
    hide Valid;
  }

  /** The recorded subscription can be brought up on the side the file holds. */
  lemma SubscriptionAdmits(w: World)
    requires w.journal.current.rotation.Some? && Inspectable(w.machine, w.journal.current) && w.journal.staged.None?
    requires w.journal.current.serving.Some? ==> SelectHttpAuthority(w.journal.current, true).Ok?
    requires w.machine.file == (if From(w.journal.current, 8) then w.journal.current.rotation.value.target
                                else w.journal.current.rotation.value.source)
    ensures Admits(FinishSubscription, w, None)
  {
    hide Inspectable, SelectHttpAuthority;
  }

  lemma RemovalAdmits(w: World)
    requires w.journal.current.rotation.Some? && Inspectable(w.machine, w.journal.current)
    ensures Admits(RemoveTarget, w, None) && Admits(CleanupStartup, w, None)
  {
    hide Inspectable;
  }

  /** What a started rotation's last effects need is always there. */
  lemma CompletionAdmits(w: World)
    requires Fits(w.machine, w.journal.current) && From(w.journal.current, 10) && w.journal.staged.None?
    ensures Inspectable(w.machine, w.journal.current)
    ensures w.machine.dropIn && w.machine.loaded
    ensures Admits(FinishSubscription, w, None) && Admits(RemoveTarget, w, None)
    ensures w.machine.file == w.journal.current.config
  {
    hide Valid, Fits, SelectHttpAuthority, Inspectable, Admits;
    StartedFacts(w.machine, w.journal.current);
    Recorded(w.machine, w.journal.current);
    ServingFollowsCheckpoint(w.journal.current, true);
    SubscriptionAdmits(w);
    RemovalAdmits(w);
  }

  lemma FinishKeepsRunning(m: Machine, r: Record)
    requires r.rotation.Some?
    ensures Runs(Applied(FinishSubscription, m, r), r) == Runs(m, r)
    ensures Runs(Applied(RemoveTarget, m, r), r) == Runs(m, r)
  {
  }

  lemma CompletionReady(m: Machine, r: Record, n: Record, t: seq<Event>)
    requires From(r, 10) && n.rotation.None? && |t| > 0 && t[|t| - 1].VerifiedRunning?
    requires Vacated(m, n) && Served(t)
    ensures Timely(t, r, n) && Backs(m, r, n)
  {
  }

  /**
   Every remaining checkpoint in order. Success means the target is selected and
   verified; without faults the run always succeeds from a poised machine.
   */
  method GoForward(h: Host, start: Snapshot) returns (ok: bool)
    requires h.Valid() && Visible(h.w.journal) == start && start.staged.None?
    requires RotationOf(start.current).Ok?
    requires Before(start.current, 8) && From(start.current, 1) ==> h.w.machine.material
    requires h.course.Some? && h.course.value.way.Some? ==> From(start.current, 8)
    modifies h
    ensures h.Valid()
    ensures ok ==> Settled(h.w, start.current.rotation.value.target)
    ensures h.reliable && Poised(old(h.w.machine), start.current) ==> ok
    ensures h.reliable && From(start.current, 8) && !Poised(old(h.w.machine), start.current) ==> !ok
    ensures h.reliable && ok ==> h.w.machine.proxy.Some? && Serves(h.w.machine, start.current)
  {
    hide Host.Valid, Fits, Worked, Done, Sealed, Poised, Settled;
    var current := start;
    while Before(current.current, 10)
      invariant h.Valid() && Visible(h.w.journal) == current && current.staged.None?
      invariant RotationOf(current.current).Ok?
      invariant current.current.rotation.value.target == start.current.rotation.value.target
      invariant current.current.serving == start.current.serving
      invariant Before(current.current, 8) && From(current.current, 1) ==> h.w.machine.material
      invariant h.course.Some? && h.course.value.way.Some? ==> From(current.current, 8)
      invariant h.reliable && Poised(old(h.w.machine), start.current) ==> Poised(h.w.machine, current.current)
      invariant h.reliable && From(start.current, 8) && !Poised(old(h.w.machine), start.current) ==>
        From(current.current, 8) && !Poised(h.w.machine, current.current)
      decreases 10 - current.current.rotation.value.checkpoint.Index()
    {
      var r := current.current;
      ValidFits(h);
      ghost var m := h.w.machine;
      MidwayPoised(m, r);
      ok := Work(h, current);
      if !ok {
        return;
      }
      ValidFits(h);
      Advanced(h.w.machine, r);
      hide AdvanceRecord, PermitsIdentity, Backs;
      var next := AdvanceRecord(r).value;
      WorkedIsReady(h.w.machine, r, next, h.trace);
      ok := PublishRecord(h, current, next);
      if !ok {
        return;
      }
      ValidFits(h);
      Recorded(h.w.machine, next);
      if Poised(m, r) {
        DonePoised(m, r, next);
      }
      current := Snapshot(next, None);
    }
    StartedPoised(h.w.machine, current.current);
    ok := Complete(h, current);
  }

  /** Between revocation and the start, nothing else is needed. */
  lemma MidwayPoised(m: Machine, r: Record)
    requires r.rotation.Some?
    ensures From(r, 8) && Before(r, 10) ==> Poised(m, r)
  {
  }

  lemma StartedPoised(m: Machine, r: Record)
    requires From(r, 10)
    ensures Poised(m, r) == Runs(m, r)
  {
  }

  // ----- Execute ------------------------------------------------------------------

  /** Reviewed authority: the successor is begun from exactly the reviewed record. */
  datatype PreparedRotation = PreparedRotation(
    snapshot: Snapshot, next: Record, operation: string, material: Material,
    directoryCreated: bool, creator: Release)

  predicate Genuine(p: PreparedRotation) {
    BeginRecord(p.snapshot.current, p.operation, p.material, Integration(p.directoryCreated), p.creator)
    == Ok(p.next)
  }

  lemma IdleFile(m: Machine, r: Record)
    requires Fits(m, r)
    ensures PendingChange(r).None? ==> m.file == r.config
  {
    hide Valid;
  }

  /** From a sound machine, the caller's checks are all that beginning needs. */
  lemma ReviewedBegins(h: Host, operation: string, material: Material, startup: Startup, creator: Release)
    requires h.Valid()
    ensures var r := h.w.journal.current;
      && (BeginRecord(r, operation, material, startup, creator).Ok? <==> BeginAllowed(r, operation, material, startup))
      && (BeginAllowed(r, operation, material, startup) ==> PendingChange(r).None?)
      && (PendingChange(r).None? ==> h.w.machine.file == r.config)
  {
    ValidFits(h);
    IdleFile(h.w.machine, h.w.journal.current);
    hide Valid, BeginRecord, Holds, Upgrade;
    BeginIsOpened(h.w.journal.current, operation, material, startup, creator);
  }

  /** The stored record, once it is durable and nothing foreign is staged. */
  method ReadChecked(h: Host) returns (s: Result<Snapshot>)
    requires h.Valid()
    modifies h`w, h`worlds
    ensures h.Valid() && Drifts(h.reliable, old(h.w), h.w)
    ensures s.Ok? ==> s.value == Visible(h.w.journal) && Unstaged(s.value)
    ensures h.reliable ==> (s.Ok? <==> Unstaged(old(Visible(h.w.journal))))
  {
    hide Host.Valid, Sealed;
    s := h.ReadSnapshot();
    if s.Err? {
      return;
    }
    var ok := CheckedSnapshot(h, s.value);
    if !ok {
      s := Err;
    }
  }

  /** Begins the successor of exactly this record, from exactly the file the machine holds. */
  method Candidate(h: Host, snapshot: Snapshot, operation: string, target: string, sourceArtifact: string,
                   targetArtifact: string, empty: bool, creator: Release)
    returns (p: Result<PreparedRotation>)
    requires h.Valid() && Visible(h.w.journal) == snapshot
    modifies h`w, h`worlds
    ensures h.Valid() && Drifts(h.reliable, old(h.w), h.w)
    ensures p.Ok? ==>
      && Genuine(p.value) && p.value.snapshot == snapshot && p.value.material.target == target
      && h.w.machine.file == p.value.material.source != target
      && Integration(p.value.directoryCreated) == Admitted(h.w.machine.dropIn || empty)
    ensures h.reliable ==>
      (p.Ok? <==>
        && Admissible(old(h.w.machine), snapshot.current) && sourceArtifact != targetArtifact
        && BeginAllowed(snapshot.current, operation,
                        Material(snapshot.current.config, target, sourceArtifact, targetArtifact),
                        Admitted(old(h.w.machine).dropIn || empty)))
  {
    hide Host.Valid, Sealed, BeginRecord, BeginAllowed, PendingChange, Admissible;
    var startup := Admitted(h.w.machine.dropIn || empty);
    ReviewedBegins(h, operation, Material(snapshot.current.config, target, sourceArtifact, targetArtifact),
                   startup, creator);
    if PendingChange(snapshot.current).Some? {
      return Err;
    }
    var admitted := h.Admit(snapshot.current, empty);
    if admitted.Err? {
      return Err;
    }
    var file := h.Configuration();
    if file.Err? || file.value != snapshot.current.config || sourceArtifact == targetArtifact {
      return Err;
    }
    var material := Material(file.value, target, sourceArtifact, targetArtifact);
    var next := BeginRecord(snapshot.current, operation, material, admitted.value, creator);
    BeginDiffers(snapshot.current, operation, material, admitted.value, creator);
    if next.Err? {
      return Err;
    }
    p := Ok(PreparedRotation(snapshot, next.value, operation, material, admitted.value.directoryCreated, creator));
  }

  /** Prepares a rotation to a generated target; nothing on the host changes. */
  method Review(h: Host, operation: string, target: string, sourceArtifact: string, targetArtifact: string,
                empty: bool, creator: Release)
    returns (p: Result<PreparedRotation>)
    requires h.Valid()
    modifies h`w, h`worlds
    ensures h.Valid() && Drifts(h.reliable, old(h.w), h.w)
    ensures p.Ok? ==> Genuine(p.value) && p.value.snapshot == Visible(h.w.journal) && p.value.material.target == target
    ensures p.Ok? ==> h.w.machine.file == p.value.material.source != target
    ensures p.Ok? ==> Integration(p.value.directoryCreated) == Admitted(h.w.machine.dropIn || empty)
    ensures h.reliable ==>
      var r := old(h.w.journal.current);
      (p.Ok? <==>
        && Unstaged(old(Visible(h.w.journal)))
        && Admissible(old(h.w.machine), r) && sourceArtifact != targetArtifact
        && BeginAllowed(r, operation, Material(r.config, target, sourceArtifact, targetArtifact),
                        Admitted(old(h.w.machine).dropIn || empty)))
  {
    hide Host.Valid, Sealed, BeginAllowed, Genuine, Integration, Admitted, Admissible;
    var snapshot := ReadChecked(h);
    if snapshot.Err? {
      return Err;
    }
    p := Candidate(h, snapshot.value, operation, target, sourceArtifact, targetArtifact, empty, creator);
    if p.Err? {
      return;
    }
    var ok := CheckedSnapshot(h, snapshot.value);
    if !ok {
      return Err;
    }
  }

  lemma BeginDiffers(r: Record, operation: string, m: Material, startup: Startup, creator: Release)
    ensures BeginRecord(r, operation, m, startup, creator).Ok? ==> m.source != m.target
  {
    hide Valid;
  }

  lemma GenuineBegins(m: Machine, p: PreparedRotation)
    requires Fits(m, p.snapshot.current) && Genuine(p)
    ensures PermitsIdentity(p.snapshot.current, p.next) && RotationOf(p.next).Ok?
    ensures p.snapshot.current.rotation.None? && p.next.rotation.value.checkpoint == Authorized
    ensures p.next.rotation.value.target == p.material.target && p.next.rotation.value.source == p.material.source
    ensures p.next.serving == p.snapshot.current.serving
  {
    var r := p.snapshot.current;
    IdentityHistory.BeginOpens(r, p.operation, p.material, Integration(p.directoryCreated), p.creator);
    IdentityHistory.InitialSuccessorRebuilds(r, p.operation, p.material, p.directoryCreated, p.creator);
    hide Valid, BeginRecord, PermitsIdentity;
  }

  lemma OpeningReady(m: Machine, r: Record, n: Record, t: seq<Event>)
    requires r.rotation.None? && n.rotation.Some?
    ensures Timely(t, r, n) && Backs(m, r, n) && Founded(t, r, n, false)
  {
  }

  /** The first record is published over exactly what was reviewed, on a machine still admitted. */
  method Open(h: Host, p: PreparedRotation, empty: bool) returns (ok: bool)
    requires h.Valid() && Genuine(p)
    requires h.course.Some? ==> h.course.value == Course(p.material.source, p.material.target, None)
    modifies h
    ensures h.Valid()
    ensures ok ==> Visible(h.w.journal) == Snapshot(p.next, None)
    ensures ok ==> old(Visible(h.w.journal)) == p.snapshot && p.snapshot.staged.None?
    ensures h.reliable ==>
      (ok <==>
        && old(Visible(h.w.journal)) == p.snapshot && p.snapshot.staged.None?
        && Admissible(old(h.w.machine), p.snapshot.current)
        && Integration(p.directoryCreated) == Admitted(old(h.w.machine).dropIn || empty))
  {
    hide Host.Valid, Fits, Sealed, Admissible, Admitted;
    ok := CheckedSnapshot(h, p.snapshot);
    if !ok {
      return;
    }
    // The installed release is the host's own check.
    ok := h.Call();
    if !ok {
      return;
    }
    var admitted := h.Admit(p.snapshot.current, empty);
    if admitted != Ok(Integration(p.directoryCreated)) {
      return false;
    }
    ValidFits(h);
    GenuineBegins(h.w.machine, p);
    OpeningReady(h.w.machine, p.snapshot.current, p.next, h.trace);
    hide PermitsIdentity, Backs, Genuine;
    ok := PublishRecord(h, p.snapshot, p.next);
  }

  /**
   A whole rotation. Whatever interrupts it, the world stays sound; without faults it
   ends with the target selected and running, exactly when the reviewed record is still
   stored alone and the machine is still admitted as it was reviewed.
   */
  method Execute(h: Host, p: PreparedRotation, empty: bool) returns (outcome: Result<Outcome>)
    requires h.Valid() && Genuine(p)
    requires h.course.Some? ==> h.course.value == Course(p.material.source, p.material.target, None)
    modifies h
    ensures h.Valid()
    ensures outcome.Ok? ==> outcome == Ok(Rotated) && Settled(h.w, p.material.target)
    ensures outcome.Ok? ==> old(Visible(h.w.journal)) == p.snapshot && p.snapshot.staged.None?
    ensures h.reliable ==>
      (outcome.Ok? <==>
        && old(Visible(h.w.journal)) == p.snapshot && p.snapshot.staged.None?
        && Admissible(old(h.w.machine), p.snapshot.current)
        && Integration(p.directoryCreated) == Admitted(old(h.w.machine).dropIn || empty))
    ensures h.reliable && outcome.Ok? ==> h.w.machine.proxy == Some(p.material.target)
    ensures h.reliable && outcome.Ok? && p.snapshot.current.serving.Some? ==>
      h.w.machine.subscription == Some(p.material.target)
  {
    hide Host.Valid, Fits, Poised, Settled, Admissible, Admitted, Serves;
    ValidFits(h);
    if p.snapshot.current == h.w.journal.current {
      GenuineBegins(h.w.machine, p);
    }
    hide Genuine, Backs, PermitsIdentity;
    var ok := Open(h, p, empty);
    if !ok {
      return Err;
    }
    var next := Prepare(h, p.next, p.material);
    if next.Err? {
      return Err;
    }
    ok := GoForward(h, Snapshot(next.value, None));
    if !ok {
      return Err;
    }
    ValidFits(h);
    SettledRuns(h.w, p.material.target);
    return Ok(Rotated);
  }

  /** The replacement becomes durable before the startup route is touched. */
  method Prepare(h: Host, r: Record, material: Material) returns (next: Result<Record>)
    requires h.Valid() && Visible(h.w.journal) == Snapshot(r, None)
    requires RotationOf(r).Ok? && r.rotation.value.checkpoint == Authorized
    requires r.rotation.value.target == material.target && (h.course.Some? ==> h.course.value.way.None?)
    modifies h
    ensures h.Valid()
    ensures next.Ok? ==>
      && Visible(h.w.journal) == Snapshot(next.value, None) && RotationOf(next.value).Ok?
      && From(next.value, 1) && Before(next.value, 8) && h.w.machine.material
      && next.value.rotation.value.target == material.target && next.value.serving == r.serving
      && Poised(h.w.machine, next.value)
    ensures h.reliable ==> next.Ok?
  {
    hide Host.Valid, Fits, Applied, Admits, Sealed, Poised;
    var current := Snapshot(r, None);
    ValidFits(h);
    PreparingAdmits(h.w);
    ghost var m := h.w.machine;
    var ok := RunEffect(h, current, PrepareTarget, Some(material.target));
    if !ok {
      return Err;
    }
    PreparedMaterial(m, h.w.machine, r);
    ValidFits(h);
    Advanced(h.w.machine, r);
    hide AdvanceRecord;
    next := AdvanceRecord(r);
    PreparingReady(h.w.machine, r, next.value, h.trace);
    hide PermitsIdentity, Backs;
    ok := PublishRecord(h, current, next.value);
    if !ok {
      return Err;
    }
    PreparedPoised(h.w.machine, next.value);
  }

  lemma PreparingAdmits(w: World)
    requires Fits(w.machine, w.journal.current) && w.journal.current.rotation.Some?
    requires w.journal.current.rotation.value.checkpoint == Authorized
    ensures forall target ::
      Admits(PrepareTarget, w, Some(target)) <==> target == w.journal.current.rotation.value.target
  {
    Recorded(w.machine, w.journal.current);
    hide Valid;
  }

  lemma PreparedMaterial(m: Machine, n: Machine, r: Record)
    requires r.rotation.Some? && Static(Applied(PrepareTarget, m, r), n)
    ensures n.material
  {
  }

  lemma PreparingReady(m: Machine, r: Record, n: Record, t: seq<Event>)
    requires r.rotation.Some? && n.rotation.Some? && r.rotation.value.checkpoint == Authorized
    requires n.rotation.value.checkpoint.Index() == 1
    ensures Timely(t, r, n) && Backs(m, r, n) && From(n, 1) && Before(n, 8)
  {
  }

  lemma PreparedPoised(m: Machine, r: Record)
    requires r.rotation.Some? && r.rotation.value.checkpoint.Index() == 1 && m.material
    ensures Poised(m, r)
  {
  }

  lemma SettledRuns(w: World, config: string)
    requires Fits(w.machine, w.journal.current) && Settled(w, config)
    ensures w.machine.proxy.Some? ==> w.machine.proxy == Some(config)
    ensures forall r: Record :: Serves(w.machine, r) && r.serving.Some? ==> w.machine.subscription == Some(config)
  {
  }

  // ----- Finish -------------------------------------------------------------------

  /** The record a finish acts on: a complete stage is published before anything else. */
  function Effective(j: Journal): (next: Record) {
    if j.staged.Some? && j.staged.value.Canonical? then j.staged.value.record else j.current
  }

  /** Revocation is durable, or complete in the stage a finish replays. */
  predicate Committed(j: Journal) { From(j.current, 8) || From(Effective(j), 8) }

  /** The side on which a finish ends. */
  function Destination(j: Journal): (text: string)
    requires j.current.rotation.Some?
  {
    if Committed(j) then j.current.rotation.value.target else j.current.rotation.value.source
  }

  /** What can be observed before a fault-free finish that decides whether it completes. */
  predicate Finishable(w: World) {
    var j, m := w.journal, w.machine;
    var r, n := j.current, Effective(j);
    && j.staged != Some(Torn) && Retryable(Visible(j))
    && r.rotation.Some?
    && (if n.rotation.None? then Runs(m, r) && (r.serving.Some? ==> m.subscription == Some(m.file))
        else if From(n, 10) then Runs(m, n)
        else if From(n, 8) then true
        else m.loaded == m.dropIn && (m.proxy.Some? || m.dropIn))
  }

  /** A staged completion is revalidated against the running machine before it counts. */
  method Revalidate(h: Host, s: Snapshot) returns (ok: bool)
    requires h.Valid() && Visible(h.w.journal) == s && h.w.journal.synced && Retryable(s)
    requires s.current.rotation.Some?
    requires s.staged.Some? && s.staged.value.Canonical? && s.staged.value.record.rotation.None?
    modifies h
    ensures h.Valid()
    ensures ok ==> Visible(h.w.journal) == s && h.w.journal.synced
    ensures ok ==> |h.trace| > 0 && h.trace[|h.trace| - 1].VerifiedRunning? && Served(h.trace)
    ensures h.reliable ==> (ok <==>
      Runs(old(h.w.machine), s.current)
      && (s.current.serving.Some? ==> old(h.w.machine).subscription == Some(old(h.w.machine).file)))
    ensures h.reliable && ok ==> h.w.machine.proxy.Some? && Serves(h.w.machine, s.current)
  {
    hide Host.Valid, Fits, Applied, Admits, Sealed, PermitsIdentity, Since, Serves;
    var r, n := s.current, s.staged.value.record;
    ok := h.Call();
    if !ok {
      return;
    }
    ValidFits(h);
    ClosingBelongs(h.w.machine, r, n);
    RevalidationAdmits(h.w);
    ghost var x := h.w;
    ok := h.Perform(FinishSubscription, r, None);
    if !ok {
      return;
    }
    PerformedStatic(h.reliable, FinishSubscription, x, h.w, r, None);
    FinishKeepsRunning(x.machine, r);
    FinishServes(x.machine, h.w.machine, r);
    ok := CheckedRetrySnapshot(h, s);
    if !ok {
      return;
    }
    ValidFits(h);
    Recorded(h.w.machine, r);
    ok := h.VerifyRunning(r);
    if !ok {
      return;
    }
    var file := h.Configuration();
    var expected := if From(r, 8) then r.rotation.value.target else r.rotation.value.source;
    ok := file == Ok(expected);
  }

  lemma ClosingBelongs(m: Machine, r: Record, n: Record)
    requires Fits(m, r) && PermitsIdentity(r, n) && r.rotation.Some? && n.rotation.None?
    ensures Belongs(FinishSubscription, r.rotation.value.checkpoint)
    ensures Before(r, 8) || From(r, 10)
  {
    hide Valid, PermitsIdentity, Holds;
    IdentityHistory.StepShape(r, n);
  }

  lemma RevalidationAdmits(w: World)
    requires Fits(w.machine, w.journal.current) && w.journal.current.rotation.Some?
    requires Before(w.journal.current, 8) || From(w.journal.current, 10)
    requires w.journal.staged.Some?
    ensures Admits(FinishSubscription, w, None) <==>
      (w.journal.current.serving.Some? ==> w.machine.subscription == Some(w.machine.file))
  {
    Recorded(w.machine, w.journal.current);
    hide Valid, SelectHttpAuthority;
  }

  /**
   Publishes exactly the reviewed stage. Replaying a revocation needs the routes and
   a fresh quiescence first, and replaying a completion a fresh look at what runs.
   */
  method Replay(h: Host, s: Snapshot) returns (ok: bool)
    requires h.Valid() && Visible(h.w.journal) == s && h.w.journal.synced && Retryable(s)
    requires RotationOf(s.current).Ok?
    requires s.staged.Some? && s.staged.value.Canonical?
    modifies h
    ensures h.Valid()
    ensures ok ==> Visible(h.w.journal) == Snapshot(s.staged.value.record, None) && h.w.journal.synced
    ensures h.reliable && ok && s.staged.value.record.rotation.Some? ==> h.w.machine == old(h.w.machine)
    ensures h.reliable ==> (ok <==>
      (s.staged.value.record.rotation.None? ==>
        Runs(old(h.w.machine), s.current)
        && (s.current.serving.Some? ==> old(h.w.machine).subscription == Some(old(h.w.machine).file))))
    ensures ok && s.staged.value.record.rotation.None? ==> Vacated(h.w.machine, s.staged.value.record)
    ensures h.reliable && ok && s.staged.value.record.rotation.None? ==>
      h.w.machine.proxy.Some? && Serves(h.w.machine, s.current)
  {
    hide Host.Valid, Fits, Sealed, PermitsIdentity, Inspectable, Since, Serves;
    var r, n := s.current, s.staged.value.record;
    ok := true;
    if h.course.Some? {
      ValidCourse(h);
    }
    if Crossing(r, n) {
      ValidFits(h);
      Recorded(h.w.machine, r);
      StagedBacks(h.w);
      SealedRoutes(h.w.machine, r);
      ok := h.Routes(r);
      if !ok {
        return;
      }
      ok := h.Quiescence(r);
      if !ok {
        return;
      }
    }
    if n.rotation.None? {
      ok := Revalidate(h, s);
      if !ok {
        return;
      }
    }
    ValidFits(h);
    StagedBacks(h.w);
    hide Backs;
    ok := h.PublishNext(r, n, true);
    if !ok {
      return;
    }
    ok := Confirm(h, n);
  }

  lemma StagedBacks(w: World)
    requires Sound(w) && w.journal.staged.Some? && w.journal.staged.value.Canonical?
    ensures Backs(w.machine, w.journal.current, w.journal.staged.value.record)
  {
  }

  lemma SealedRoutes(m: Machine, r: Record)
    ensures Sealed(m, r) ==> m.dropIn && m.loaded && m.proxy.None? && m.subscription.None?
  {
  }

  /** Undoes a rotation that has not revoked its source. */
  method CleanUp(h: Host, current: Snapshot) returns (ok: bool)
    requires h.Valid() && Visible(h.w.journal) == current && current.staged.None?
    requires RotationOf(current.current).Ok? && Before(current.current, 8)
    modifies h
    ensures h.Valid()
    ensures ok ==> Settled(h.w, current.current.rotation.value.source)
    ensures h.reliable ==> (ok <==>
      old(h.w.machine).loaded == old(h.w.machine).dropIn
      && (old(h.w.machine).proxy.Some? || old(h.w.machine).dropIn))
    ensures h.reliable && ok ==> h.w.machine.proxy.Some? && Serves(h.w.machine, current.current)
  {
    hide Host.Valid, Fits, Applied, Admits, Sealed, Inspectable, ClearRecord, PermitsIdentity, Backs, Crossing,
         Completing, Timely, RotationOf, Since, Serves;
    var r := current.current;
    var source := r.rotation.value.source;
    ValidFits(h);
    Recorded(h.w.machine, r);
    var file := h.Configuration();
    if file != Ok(source) {
      ValidFits(h);
      Recorded(h.w.machine, r);
      HeldFile(h.w.machine, r);
      return false;
    }
    ValidFits(h);
    RestoreAdmits(h.w);
    ghost var m := h.w.machine;
    ok := RunEffect(h, current, RestoreSource, None);
    if !ok {
      return;
    }
    RestoredRuns(m, r);
    ok := h.VerifyRunning(r);
    if !ok {
      return;
    }
    ok := Retire(h, current);
  }

  method Retire(h: Host, current: Snapshot) returns (ok: bool)
    requires h.Valid() && Visible(h.w.journal) == current && current.staged.None?
    requires RotationOf(current.current).Ok? && Before(current.current, 8)
    requires Since(h.trace, VerifiedRunning)
    modifies h
    ensures h.Valid()
    ensures ok ==> Settled(h.w, current.current.rotation.value.source)
    ensures h.reliable ==>
      ok && h.w.machine.proxy == old(h.w.machine.proxy) && Serves(h.w.machine, current.current)
  {
    hide Host.Valid, Fits, Applied, Admits, Sealed, Inspectable, Backs, Since, Serves, Settled;
    var r := current.current;
    ValidFits(h);
    RetireAdmits(h.w);
    ghost var m := h.w.machine;
    ok := RunEffect(h, current, FinishSubscription, None);
    if !ok {
      return;
    }
    RetireKeepsProxy(m, r);
    FinishServes(m, h.w.machine, r);
    ValidFits(h);
    RetireAdmits(h.w);
    m := h.w.machine;
    ok := RunEffect(h, current, RemoveTarget, None);
    if !ok {
      return;
    }
    RetireKeepsProxy(m, r);
    RemovedIsGone(m, h.w.machine, r);
    ok := Disintegrate(h, current);
  }

  /** The startup integration stays exactly if its route works; then the record can go. */
  method Disintegrate(h: Host, current: Snapshot) returns (ok: bool)
    requires h.Valid() && Visible(h.w.journal) == current && current.staged.None?
    requires RotationOf(current.current).Ok? && Before(current.current, 8)
    requires !h.w.machine.material && Served(h.trace)
    modifies h
    ensures h.Valid()
    ensures ok ==> Settled(h.w, current.current.rotation.value.source)
    ensures h.reliable ==>
      && ok && h.w.machine.dropIn == (old(h.w.machine.dropIn) && old(h.w.machine.loaded))
      && h.w.machine.proxy == old(h.w.machine.proxy)
      && (Serves(old(h.w.machine), current.current) ==> Serves(h.w.machine, current.current))
  {
    hide Host.Valid, Fits, Applied, Admits, Sealed, Inspectable, Backs, Since, Serves, Settled;
    var r := current.current;
    var retain := h.Routes(r);
    if !retain {
      ValidFits(h);
      RetireAdmits(h.w);
      ghost var m := h.w.machine;
      ok := RunEffect(h, current, CleanupStartup, None);
      if !ok {
        return;
      }
      RetireKeepsProxy(m, r);
      CleanedIsGone(m, h.w.machine, r);
    }
    ok := Leave(h, current, retain);
  }

  /** Clears the record once the file is seen to be the source again. */
  method Leave(h: Host, current: Snapshot, retain: bool) returns (ok: bool)
    requires h.Valid() && Visible(h.w.journal) == current && current.staged.None?
    requires RotationOf(current.current).Ok? && Before(current.current, 8)
    requires !h.w.machine.material && h.w.machine.dropIn == h.w.machine.loaded == retain && Served(h.trace)
    modifies h
    ensures h.Valid()
    ensures ok ==> Settled(h.w, current.current.rotation.value.source) && h.w.machine.dropIn == retain
    ensures h.reliable ==> ok && h.w.machine == old(h.w.machine)
  {
    hide Host.Valid, Fits, Sealed, Inspectable, ClearRecord, PermitsIdentity, Backs, Crossing, Completing, Timely,
         Served;
    var r := current.current;
    ValidFits(h);
    HeldFile(h.w.machine, r);
    var file := h.Configuration();
    if file != Ok(r.rotation.value.source) {
      return false;
    }
    ValidFits(h);
    Cleared(h.w.machine, r, retain);
    HeldFile(h.w.machine, r);
    CleaningReady(h.w.machine, r, ClearRecord(r, retain).value, h.trace);
    ok := PublishRecord(h, current, ClearRecord(r, retain).value);
  }

  lemma CleanedIsGone(m: Machine, n: Machine, r: Record)
    requires r.rotation.Some? && Static(Applied(CleanupStartup, m, r), n)
    ensures !n.dropIn && !n.loaded && n.material == m.material
    ensures n == Applied(CleanupStartup, m, r) && Serves(m, r) ==> Serves(n, r)
  {
  }

  lemma HeldFile(m: Machine, r: Record)
    requires Fits(m, r) && Before(r, 8)
    ensures m.file == r.config == r.rotation.value.source
  {
    hide Valid, Inspectable;
    Recorded(m, r);
  }

  lemma RestoreAdmits(w: World)
    requires Fits(w.machine, w.journal.current) && Before(w.journal.current, 8) && w.journal.staged.None?
    ensures Admits(RestoreSource, w, None) <==>
      Runs(w.machine, w.journal.current) || (w.machine.dropIn && w.machine.loaded)
  {
    HeldFile(w.machine, w.journal.current);
    Recorded(w.machine, w.journal.current);
    CutoverFollowsCheckpoint(w.journal.current);
    IdentityHistory.OpenShape(w.journal.current);
    hide CutoverConfiguration, Inspectable, Resources, SchemaShape, ProgressShape;
  }

  lemma RestoredRuns(m: Machine, r: Record)
    requires r.rotation.Some? && m.file == r.config
    ensures Runs(Applied(RestoreSource, m, r), r) <==> m.loaded == m.dropIn
  {
  }

  lemma RetireAdmits(w: World)
    requires Fits(w.machine, w.journal.current) && Before(w.journal.current, 8) && w.journal.staged.None?
    ensures Admits(FinishSubscription, w, None) && Admits(RemoveTarget, w, None) && Admits(CleanupStartup, w, None)
  {
    hide Valid, Fits, SelectHttpAuthority, Inspectable, Admits;
    HeldFile(w.machine, w.journal.current);
    Recorded(w.machine, w.journal.current);
    RunningNow(w.machine, w.journal.current);
    ServingFollowsCheckpoint(w.journal.current, true);
    SubscriptionAdmits(w);
    RemovalAdmits(w);
  }

  lemma RunningNow(m: Machine, r: Record)
    requires Fits(m, r)
    ensures Valid(r) && r.phase == Running
  {
    hide Valid, Holds;
  }

  lemma RetireKeepsProxy(m: Machine, r: Record)
    requires r.rotation.Some?
    ensures Applied(FinishSubscription, m, r).proxy == m.proxy
    ensures Applied(RemoveTarget, m, r).proxy == m.proxy
    ensures Applied(CleanupStartup, m, r).proxy == m.proxy
  {
  }

  lemma CleaningReady(m: Machine, r: Record, n: Record, t: seq<Event>)
    requires Before(r, 8) && n.rotation.None? && Vacated(m, n) && Served(t)
    ensures Timely(t, r, n) && Backs(m, r, n) && !Crossing(r, n)
  {
  }

  /** What a replayed stage can be. */
  lemma ReplayShape(m: Machine, r: Record, n: Record)
    requires Fits(m, r) && r.rotation.Some? && PermitsIdentity(r, n)
    ensures n.rotation.Some? ==>
      && n.rotation.value.source == r.rotation.value.source
      && n.rotation.value.target == r.rotation.value.target
      && (From(r, 8) ==> From(n, 8))
    ensures n.rotation.None? ==>
      n.config == if From(r, 8) then r.rotation.value.target else r.rotation.value.source
    ensures n.serving == r.serving
  {
    hide Valid, PermitsIdentity, Holds;
    IdentityHistory.StepShape(r, n);
    StepKeeps(r, n);
  }

  lemma NeedsRotation(m: Machine, r: Record)
    requires Fits(m, r)
    ensures Inspectable(m, r) <==> r.rotation.Some?
    ensures r.rotation.Some? ==> RotationOf(r).Ok?
  {
    if r.rotation.Some? {
      Recorded(m, r);
    }
    hide Valid, Holds;
  }

  lemma SettledNow(w: World)
    requires Fits(w.machine, w.journal.current)
    requires w.journal.staged.None? && w.journal.synced && w.journal.current.rotation.None?
    requires Vacated(w.machine, w.journal.current)
    ensures Settled(w, w.journal.current.config)
    ensures forall r: Record :: Serves(w.machine, r) && r.serving.Some? ==>
      w.machine.subscription == Some(w.journal.current.config)
    ensures w.machine.proxy.Some? ==> w.machine.proxy == Some(w.journal.current.config)
  {
    hide Valid;
  }

  /** With nothing staged, the durable checkpoint alone chooses the way. */
  method Conclude(h: Host, current: Snapshot) returns (ok: bool)
    requires h.Valid() && Visible(h.w.journal) == current && current.staged.None?
    requires RotationOf(current.current).Ok?
    requires Before(current.current, 8) || From(current.current, 8)
    modifies h
    ensures h.Valid()
    ensures ok ==> Settled(h.w, if From(current.current, 8) then current.current.rotation.value.target
                                else current.current.rotation.value.source)
    ensures h.reliable ==>
      (ok <==>
         if From(current.current, 10) then Runs(old(h.w.machine), current.current)
         else if From(current.current, 8) then true
         else old(h.w.machine).loaded == old(h.w.machine).dropIn
              && (old(h.w.machine).proxy.Some? || old(h.w.machine).dropIn))
    ensures h.reliable && ok ==> h.w.machine.proxy.Some? && Serves(h.w.machine, current.current)
  {
    hide Host.Valid, Poised, Settled, Serves;
    if From(current.current, 8) {
      if From(current.current, 10) {
        StartedPoised(h.w.machine, current.current);
      } else {
        MidwayPoised(h.w.machine, current.current);
      }
      ok := GoForward(h, current);
    } else {
      ok := CleanUp(h, current);
    }
  }

  /**
   Completes or undoes an interrupted rotation. It ends on the target exactly when
   revocation is committed; without faults it completes exactly when the observed
   machine is finishable.
   */
  method Finish(h: Host, prepared: Snapshot) returns (outcome: Result<Outcome>)
    requires h.Valid()
    modifies h
    ensures h.Valid()
    ensures outcome.Ok? ==>
      && old(Visible(h.w.journal)) == prepared && prepared.current.rotation.Some?
      && outcome.value == (if old(Committed(h.w.journal)) then Finished else CleanedUp)
      && Settled(h.w, old(Destination(h.w.journal)))
    ensures h.reliable ==> (outcome.Ok? <==> old(Visible(h.w.journal)) == prepared && old(Finishable(h.w)))
    ensures h.reliable && outcome.Ok? ==> h.w.machine.proxy == Some(old(Destination(h.w.journal)))
    ensures h.reliable && outcome.Ok? && prepared.current.serving.Some? ==>
      h.w.machine.subscription == Some(old(Destination(h.w.journal)))
  {
    hide Host.Valid, Fits, Sealed, PermitsIdentity, Inspectable, Poised, Settled, Runs, Serves;
    var ok := CheckedRetrySnapshot(h, prepared);
    if !ok {
      return Err;
    }
    ok := h.Inspect(prepared.current);
    ValidFits(h);
    NeedsRotation(h.w.machine, prepared.current);
    if !ok {
      return Err;
    }
    var current := prepared;
    var committed := From(prepared.current, 8);
    if prepared.staged.Some? {
      var n := prepared.staged.value.record;
      ReplayShape(h.w.machine, prepared.current, n);
      ok := Replay(h, prepared);
      if !ok {
        return Err;
      }
      ValidFits(h);
      if n.rotation.None? {
        SettledNow(h.w);
        return Ok(if committed then Finished else CleanedUp);
      }
      NeedsRotation(h.w.machine, n);
      ok := h.Inspect(n);
      if !ok {
        return Err;
      }
      current := Snapshot(n, None);
      committed := From(n, 8);
    }
    ok := Conclude(h, current);
    if !ok {
      return Err;
    }
    ValidFits(h);
    SettledRuns(h.w, if committed then current.current.rotation.value.target
                     else current.current.rotation.value.source);
    return Ok(if committed then Finished else CleanedUp);
  }
}
