/**
 Results about whole histories of a rotation: crashes, retries, power losses and
 services starting by themselves in between.
 */
module RotationRuns {
  import opened Wrappers
  import opened Records
  import opened IdentityRecords
  import IdentityHistory
  import Footprint
  import opened RuntimeHandoff
  import opened RotationWorld
  import opened RotationEffects
  import opened RotationHost
  import opened Rotation

  // ----- The two credentials are never usable together ----------------------------

  /** The proxy would be let through, if the owner lent its lock and issued this gate. */
  predicate GatedStart(w: World, gate: Option<string>) {
    var m := w.machine;
    AuthorizesProxyStart(w.journal.current, m.file, m.dropIn && m.loaded, true, true, gate)
  }

  ghost predicate Startable(w: World) {
    || ProxyStarts(w) || (exists gate :: GatedStart(w, gate))
    || SubscriptionStarts(w) || SelectHttpAuthority(w.journal.current, true).Ok?
  }

  /** Some process runs c, or some start route of any kind would let one. */
  ghost predicate Usable(w: World, c: string) {
    w.machine.proxy == Some(c) || w.machine.subscription == Some(c) || (w.machine.file == c && Startable(w))
  }

  lemma NothingStartsAtRevocation(w: World)
    requires Sound(w) && AtRevoked(w.journal.current)
    ensures !Startable(w)
  {
    hide Valid, CutoverConfiguration, SelectHttpAuthority, ProxyStarts, SubscriptionStarts, Backs, SameAuthority;
    var r := w.journal.current;
    CutoverFollowsCheckpoint(r);
    ServingFollowsCheckpoint(r, true);
    GatedStarts(w);
  }

  /**
   In every sound world of an open rotation, only the source is usable before
   revocation, nothing at revocation, and only the target once it is published.
   */
  lemma Exclusion(w: World, c: string)
    requires Sound(w) && w.journal.current.rotation.Some? && Usable(w, c)
    ensures var v := w.journal.current.rotation.value;
      && v.checkpoint != Revoked
      && c == (if v.checkpoint.Index() < 8 then v.source else v.target)
      && v.source != v.target
  {
    var r := w.journal.current;
    if AtRevoked(r) {
      NothingStartsAtRevocation(w);
    }
    Recorded(w.machine, r);
    SidesDiffer(r);
    hide Valid, Startable, Inspectable, Backs;
  }

  lemma SidesDiffer(r: Record)
    requires Valid(r) && r.rotation.Some?
    ensures r.rotation.value.source != r.rotation.value.target
  {
    hide Resources, SchemaShape, ProgressShape;
  }

  /** Throughout a run, at every moment of every interleaving, never both. */
  lemma NeverBoth(h: Host, i: nat, v: Records.Rotation)
    requires h.Valid() && i < |h.worlds| && h.worlds[i].journal.current.rotation == Some(v)
    ensures !(Usable(h.worlds[i], v.source) && Usable(h.worlds[i], v.target))
  {
    var w := h.worlds[i];
    hide Sound, Usable, Disciplined;
    if Usable(w, v.source) && Usable(w, v.target) {
      Exclusion(w, v.source);
      Exclusion(w, v.target);
    }
  }

  /** Every attempt to revoke, by execute or by a replaying finish, directly follows fresh proofs. */
  lemma RevocationIsProved(h: Host, i: nat)
    requires h.Valid() && i < |h.trace| && h.trace[i].Attempted?
    requires Crossing(h.trace[i].from, h.trace[i].to)
    ensures i > 1 && h.trace[i - 1] == Accepted && h.trace[i - 2] == Routed
    ensures PermitsIdentity(h.trace[i].from, h.trace[i].to)
  {
    hide PermitsIdentity, Sound;
    assert InOrder(h.trace, i);
  }

  /** What happened since the last publication is in the log behind it, and behind the beginning of the process. */
  lemma {:induction false} SinceMeans(t: seq<Event>, e: Event) returns (j: nat)
    requires Since(t, e)
    ensures j < |t| && t[j] == e && forall k :: j <= k < |t| ==> !t[k].Began? && !t[k].Attempted?
  {
    if t[|t| - 1] == e {
      j := |t| - 1;
    } else {
      j := SinceMeans(t[..|t| - 1], e);
    }
  }

  /**
   Every attempt to end an operation, and every removal of its staging, is made by a process that
   itself saw the recorded side running and settled the recorded subscription before.
   */
  lemma ClosingIsServed(h: Host, i: nat) returns (seen: nat, settled: nat)
    requires h.Valid() && i < |h.trace|
    requires (h.trace[i].Attempted? && h.trace[i].from.rotation.Some? && h.trace[i].to.rotation.None?)
             || (h.trace[i].Performed? && h.trace[i].effect == RemoveTarget)
    ensures seen < i && h.trace[seen] == VerifiedRunning
    ensures settled < i && h.trace[settled] == Succeeded(FinishSubscription)
    ensures forall k :: seen <= k < i || settled <= k < i ==> !h.trace[k].Began? && !h.trace[k].Attempted?
  {
    hide Sound, PermitsIdentity, Since;
    assert InOrder(h.trace, i);
    var t := h.trace[..i];
    seen := SinceMeans(t, VerifiedRunning);
    settled := SinceMeans(t, Succeeded(FinishSubscription));
    assert forall k :: 0 <= k < i ==> h.trace[k] == t[k];
  }

  /** What the work of a checkpoint leaves in the log: the effect by name, or the look that is called for. */
  function WorkOf(c: Checkpoint): (done: Option<Event>) {
    match c
    case Authorized => None
    case TargetPrepared => Some(Succeeded(PrepareTarget))
    case IntegrationPublished => Some(Succeeded(PublishStartup))
    case Reloaded => Some(Succeeded(Reload))
    case RouteVerified => Some(Routed)
    case Gated => Some(Routed)
    case Stopped => Some(Succeeded(StopSource))
    case Quiescent => Some(Accepted)
    case Revoked => Some(Accepted)
    case TargetPublished => Some(Succeeded(PublishTarget))
    case TargetStarted => Some(Succeeded(StartTarget))
  }

  /**
   A checkpoint is recorded only by a process that did its work itself, between its previous
   publication and this one, unless it replays a stage; from the gate on it also saw the routes.
   */
  lemma RecordedIsDone(h: Host, i: nat) returns (done: nat)
    requires h.Valid() && i < |h.trace| && h.trace[i].Attempted? && !h.trace[i].replayed
    requires h.trace[i].from.rotation.Some? && h.trace[i].to.rotation.Some? && h.trace[i].from != h.trace[i].to
    requires WorkOf(h.trace[i].to.rotation.value.checkpoint).Some?
    ensures done < i && WorkOf(h.trace[i].to.rotation.value.checkpoint) == Some(h.trace[done])
    ensures forall k :: done <= k < i ==> !h.trace[k].Began? && !h.trace[k].Attempted?
    ensures From(h.trace[i].to, 4) ==>
      exists j :: 0 <= j < i && h.trace[j] == Routed && forall k :: j <= k < i ==> !h.trace[k].Attempted?
  {
    hide Sound, PermitsIdentity, Since;
    assert InOrder(h.trace, i);
    var t := h.trace[..i];
    var e := WorkOf(h.trace[i].to.rotation.value.checkpoint).value;
    assert Since(t, e);
    done := SinceMeans(t, e);
    assert forall k :: 0 <= k < i ==> h.trace[k] == t[k];
    if From(h.trace[i].to, 4) {
      assert Since(t, Routed);
      var j := SinceMeans(t, Routed);
      assert h.trace[j] == Routed && forall k :: j <= k < i ==> !h.trace[k].Attempted?;
    }
  }

  // ----- Crashes and retries ------------------------------------------------------

  /** Anything that happens between two runs. */
  method Interlude(w: World, ghost course: Option<Course>) returns (next: World)
    requires Sound(w) && (course.Some? ==> Determined(course.value, w.journal))
    ensures Sound(next) && (course.Some? ==> Determined(course.value, next.journal))
  {
    next := w;
    hide Sound, Elapses;
    var m: Machine := *;
    if Elapses(next, m) {
      ElapsesKeepsSound(next, m);
      next := next.(machine := m);
    }
    var after: World := *;
    if LosesPower(next, after) {
      PowerLossKeepsSound(next, after);
      if course.Some? {
        PowerLossDetermined(course.value, next, after);
      }
      next := after;
    }
  }

  lemma PowerLossDetermined(c: Course, w: World, after: World)
    requires LosesPower(w, after) && Determined(c, w.journal)
    ensures Determined(c, after.journal)
  {
    hide Leads, Sealed;
  }

  /** One attempt to finish, on whatever is stored. */
  method Attempt(reliable: bool, w: World, ghost course: Option<Course>, ghost trace: seq<Event>)
    returns (next: World, done: bool, ghost log: seq<Event>)
    requires Sound(w) && Disciplined(trace)
    requires course.Some? ==> Determined(course.value, w.journal)
    ensures Sound(next) && Disciplined(log)
    ensures course.Some? ==> Determined(course.value, next.journal)
    ensures done ==> w.journal.current.rotation.Some? && Settled(next, Destination(w.journal))
    ensures reliable ==> (done <==> Finishable(w))
    ensures reliable && done ==> next.machine.proxy == Some(Destination(w.journal))
    ensures reliable && done && w.journal.current.serving.Some? ==>
      next.machine.subscription == Some(Destination(w.journal))
  {
    var h := new Host(reliable, w, course, trace);
    hide Fits, Backs, Settled, PermitsIdentity, Runs;
    done := false;
    var snapshot := h.ReadSnapshot();
    if snapshot.Ok? {
      ghost var before := h.w;
      var outcome := Finish(h, snapshot.value);
      done := outcome.Ok?;
    }
    next := h.w;
    log := h.trace;
    assert Sound(h.worlds[|h.worlds| - 1]);
  }

  /**
   Any number of interrupted runs, power losses and self-made starts, from any sound
   world, then one run without faults. It completes exactly when the machine it finds
   is finishable, on the side the store then shows. What the store determined at the
   start, if anything, is where it ends.
   */
  method Recover(start: World, ghost course: Option<Course>, interruptions: nat)
    returns (last: World, final: World, done: bool, ghost log: seq<Event>)
    requires Sound(start) && (course.Some? ==> Determined(course.value, start.journal))
    ensures Sound(last) && (course.Some? ==> Determined(course.value, last.journal)) && Sound(final) && Disciplined(log)
    ensures done <==> Finishable(last)
    ensures done ==>
      && last.journal.current.rotation.Some?
      && Settled(final, Destination(last.journal)) && final.machine.proxy == Some(Destination(last.journal))
      && (last.journal.current.serving.Some? ==> final.machine.subscription == Some(Destination(last.journal)))
    ensures done && course.Some? ==> Destination(last.journal) in course.value.Ends()
  {
    hide Sound, Finishable, Disciplined, Settled, Determined;
    last := start;
    log := [];
    assert Disciplined([]) by { NothingLogged(); }
    for i := 0 to interruptions
      invariant Sound(last) && (course.Some? ==> Determined(course.value, last.journal)) && Disciplined(log)
    {
      last := Interlude(last, course);
      var ended;
      last, ended, log := Attempt(false, last, course, log);
    }
    last := Interlude(last, course);
    final, done, log := Attempt(true, last, course, log);
    if done && course.Some? {
      DestinationIsDetermined(course.value, last.journal);
    }
  }

  lemma NothingLogged()
    ensures Disciplined([])
  {
  }

  lemma DestinationIsDetermined(c: Course, j: Journal)
    requires Determined(c, j) && j.current.rotation.Some?
    ensures Destination(j) in c.Ends()
    ensures c.way.Some? ==> (Committed(j) <==> c.way == Some(Forward))
  {
  }

  // ----- Where histories start ----------------------------------------------------

  /** A running record without a rotation, over a machine that runs nothing but its side. */
  predicate AtRest(r: Record, m: Machine) {
    && Valid(r) && r.phase == Running && r.direction == Idle && r.rotation.None?
    && m.file == r.config && m.fileSynced
    && m.proxy in {None, Some(r.config)}
    && (m.subscription.None? || (m.subscription == Some(r.config) && r.serving.Some?))
  }

  /** A valid running record without a rotation describes every machine that holds and at most runs its side. */
  lemma RestIsSound(r: Record, m: Machine)
    requires AtRest(r, m)
    ensures Sound(World(Journal(r, None, true, r), m))
  {
    hide Valid;
  }

  /** From rest, a rotation that is admitted and meets no fault ends running the target. */
  method RotateFromRest(r: Record, m: Machine, operation: string, target: string, sourceArtifact: string,
                        targetArtifact: string, empty: bool, creator: Release)
    returns (final: World, done: bool)
    requires AtRest(r, m)
    ensures Sound(final)
    ensures done <==> Admissible(m, r) && sourceArtifact != targetArtifact
                      && BeginAllowed(r, operation, Material(r.config, target, sourceArtifact, targetArtifact),
                                      Admitted(m.dropIn || empty))
    ensures done ==> Settled(final, target) && final.machine.proxy == Some(target)
    ensures done && r.serving.Some? ==> final.machine.subscription == Some(target)
  {
    hide Valid, Sound, BeginAllowed, Integration, Admitted, Admissible, Settled, Genuine;
    RestIsSound(r, m);
    NothingLogged();
    var h := new Host(true, World(Journal(r, None, true, r), m), None, []);
    var p := Review(h, operation, target, sourceArtifact, targetArtifact, empty, creator);
    done := false;
    if p.Ok? {
      var outcome := Execute(h, p.value, empty);
      done := outcome.Ok?;
    }
    final := h.w;
    assert Sound(h.worlds[|h.worlds| - 1]);
  }

  /**
   A rotation from rest that may stop anywhere, then any interruptions and one finish
   without faults. Every crash point of the rotation is covered, those inside the
   publication of the revocation included.
   */
  method RotateThenRecover(r: Record, m: Machine, operation: string, target: string, sourceArtifact: string,
                           targetArtifact: string, empty: bool, creator: Release, interruptions: nat)
    returns (crashed: World, last: World, final: World, done: bool, ghost log: seq<Event>)
    requires AtRest(r, m)
    ensures Sound(crashed) && Sound(last) && Sound(final) && Disciplined(log)
    ensures done <==> Finishable(last)
    ensures done ==>
      && last.journal.current.rotation.Some? && Destination(last.journal) in {r.config, target}
      && Settled(final, Destination(last.journal)) && final.machine.proxy == Some(Destination(last.journal))
      && (last.journal.current.serving.Some? ==> final.machine.subscription == Some(Destination(last.journal)))
    ensures Leads(Course(r.config, target, None), last.journal.current)
  {
    hide Valid, Sound, Finishable, Disciplined, Settled, Genuine;
    RestIsSound(r, m);
    NothingLogged();
    ghost var course := Course(r.config, target, None);
    var h := new Host(false, World(Journal(r, None, true, r), m), Some(course), []);
    var p := Review(h, operation, target, sourceArtifact, targetArtifact, empty, creator);
    if p.Ok? {
      var outcome := Execute(h, p.value, empty);
    }
    crashed := h.w;
    assert Sound(h.worlds[|h.worlds| - 1]);
    last, final, done, log := Recover(crashed, Some(course), interruptions);
  }

  // ----- What a rotation leaves is owned ------------------------------------------

  /** While a rotation is open its record owns the staged replacement and the startup integration. */
  lemma OpenIsOwned(m: Machine, r: Record)
    requires Fits(m, r) && r.rotation.Some?
    ensures TargetFile(r.rotation.value.target) in r.resources && ConfigNext(r.rotation.value.target) in r.resources
    ensures StartupFile(DROP_IN) in r.resources
    ensures r.serving.Some? ==> exists sha :: StagedArtifact(sha) in r.resources
  {
    OpenSubscription(r);
    hide Valid;
    Footprint.OwnsExactly(r, TargetFile(r.rotation.value.target));
    Footprint.OwnsExactly(r, ConfigNext(r.rotation.value.target));
    Footprint.OwnsExactly(r, StartupFile(DROP_IN));
    if r.serving.Some? {
      Footprint.OwnsExactly(r, StagedArtifact(TargetArtifact(r.rotation.value).value));
    }
  }

  lemma OpenSubscription(r: Record)
    requires Valid(r) && r.rotation.Some?
    ensures r.serving.Some? <==> r.rotation.value.subscription.Some?
  {
    hide Resources, SchemaShape, ProgressShape;
  }

  /** Once it is over nothing staged is left, owned or not, and the integration is there exactly if owned. */
  lemma SettledIsOwned(w: World, config: string)
    requires Fits(w.machine, w.journal.current) && Settled(w, config)
    ensures !w.machine.material
    ensures forall res: Resource :: res in w.journal.current.resources ==>
      !(res.TargetFile? || res.TargetFileNext? || res.ConfigNext? || res.StagedArtifact? || res.IdentityStagingFile?)
    ensures w.machine.dropIn <==> exists sha :: StartupFile(sha) in w.journal.current.resources
  {
    var r := w.journal.current;
    hide Valid, Footprint.ServesAt, Footprint.Prepares;
    forall res: Resource ensures res in r.resources <==> Footprint.Due(r, res) {
      Footprint.OwnsExactly(r, res);
    }
    if r.startup.Some? {
      assert StartupFile(r.startup.value.dropIn) in r.resources;
    }
  }

  // ----- Where the promises stop --------------------------------------------------

  /** The machine just after power returns, with nothing started yet. */
  function Dark(w: World): (world: World) {
    World(w.journal.(synced := true),
          w.machine.(proxy := None, subscription := None, loaded := w.machine.dropIn, fileSynced := true))
  }

  lemma DarkIsPossible(w: World)
    ensures LosesPower(w, Dark(w))
  {
  }

  /**
   A power loss between starting the target and clearing the record leaves a
   rotation that no finish completes: forward only verifies the proxy here, and
   every start but a gated one is refused.
   */
  lemma StuckAtTargetStarted(w: World, after: World, m: Machine)
    requires Sound(w) && From(w.journal.current, 10) && w.journal.staged.None?
    requires LosesPower(w, after) && after.journal.current == w.journal.current
    requires Elapses(after, m)
    ensures Sound(after) && !Finishable(after)
    ensures m.proxy.None? && !Finishable(after.(machine := m))
  {
    PowerLossKeepsSound(w, after);
    GatedStarts(after);
    hide Fits, Backs, PermitsIdentity;
    DarkHolds(w, after);
  }

  /**
   Before revocation, a start condition that is on disk but not loaded, or loaded but no
   longer on disk, stops every finish, whatever services do meanwhile. Power lost over one
   on disk lets the finish complete: the manager has then loaded it.
   */
  lemma UnloadedStartupBlocksCleanup(w: World, m: Machine)
    requires Sound(w) && !Committed(w.journal) && w.machine.dropIn != w.machine.loaded
    requires Elapses(w, m)
    ensures !Finishable(w) && !Finishable(w.(machine := m))
    ensures LosesPower(w, Dark(w))
    ensures Retryable(Visible(w.journal)) && w.journal.current.rotation.Some? && Effective(w.journal).rotation.Some? ==>
      (Finishable(Dark(w)) <==> w.machine.dropIn)
  {
    hide Fits, Backs, PermitsIdentity, ProxyStarts, SubscriptionStarts;
  }

  /** Publishing the startup integration leads there until the reload that follows it. */
  lemma StartupIsPublishedUnloaded(w: World)
    requires Sound(w) && w.journal.synced && w.journal.staged.None? && !w.machine.loaded
    requires w.journal.current.rotation.Some? && w.journal.current.rotation.value.checkpoint == TargetPrepared
    ensures Admits(PublishStartup, w, None)
    ensures var x := w.(machine := Applied(PublishStartup, w.machine, w.journal.current));
      Sound(x) && !Committed(x.journal) && x.machine.dropIn && !x.machine.loaded && !Finishable(x)
  {
    Recorded(w.machine, w.journal.current);
    EffectKeepsSound(PublishStartup, w, Applied(PublishStartup, w.machine, w.journal.current));
    hide Sound, Inspectable;
  }

  lemma DarkHolds(w: World, after: World)
    requires Sound(after) && LosesPower(w, after) && From(after.journal.current, 8)
    ensures after.machine.loaded && after.machine.proxy.None?
  {
    hide Valid, Backs;
  }

  /**
   A revocation that was completely staged but not renamed is replayed by finish,
   which then ends on the target although the durable direction is still backward.
   */
  lemma StagedRevocationIsCommitted(w: World)
    requires Sound(w) && w.journal.synced && w.journal.staged.None?
    requires w.journal.current.rotation.Some? && w.journal.current.rotation.value.checkpoint == Quiescent
    requires Silent(w.machine)
    ensures AdvanceRecord(w.journal.current).Ok?
    ensures var staged := w.(journal := w.journal.(staged := Some(Canonical(AdvanceRecord(w.journal.current).value))));
      && Sound(staged) && Finishable(staged)
      && staged.journal.current.rotation.value.direction == Backward
      && Destination(staged.journal) == w.journal.current.rotation.value.target
  {
    var r := w.journal.current;
    Advanced(w.machine, r);
    IdentityHistory.OpenShape(r);
    var n := AdvanceRecord(r).value;
    Recorded(w.machine, r);
    assert Before(r, 8) && From(n, 8) && !From(n, 9);
    var k := w.journal.(staged := Some(Canonical(n)));
    assert Publishes(w.journal, n, k);
    PublishKeepsSound(w, n, k);
    hide Valid, Holds, PermitsIdentity, AdvanceRecord;
  }
}
