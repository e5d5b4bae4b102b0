/** Whole histories of tunnel setup: interrupted runs and power losses around the commit. */
module SetupRuns {
  import opened Wrappers
  import opened Records
  import opened SetupPlan
  import opened TunnelSetup

  /** The record files fall back to something the disk holds; the boot starts any of the services linked for it. */
  predicate LosesPower(w: World, x: World) {
    && x.alternatives == {} && Boots(w.present, x.present)
    && (x.shown in w.alternatives || x.shown == w.shown || x.shown == w.shown.(staged := None)
        || x.shown == w.shown.(staged := Some(Torn)))
  }

  /** Services stop, or start where they are linked, without any loss of power. */
  predicate Elapses(w: World, x: World) { x == w.(present := x.present) && Boots(w.present, x.present) }

  lemma BootKeepsFits(s: Snapshot, before: set<Thing>, after: set<Thing>)
    requires Fits(s, before) && Boots(before, after)
    ensures Fits(s, after)
  {
    if s.current.Some? {
      BootKeepsBounded(s.current.value, before, after);
    } else {
      assert forall t :: t in after ==> t in SERVICES || t in after - SERVICES;
    }
    if s.staged.Some? && s.staged.value.Canonical? {
      BootKeepsBounded(s.staged.value.record, before, after);
    }
    hide SetupRecord, Bounded;
  }

  lemma BootKeepsSound(w: World, after: set<Thing>)
    requires Sound(w) && Boots(w.present, after)
    ensures Sound(w.(present := after))
  {
    hide Fits, Boots;
    BootKeepsFits(w.shown, w.present, after);
    forall s | s in w.alternatives ensures Fits(s, after) {
      BootKeepsFits(s, w.present, after);
    }
  }

  /** Whichever record comes back and whichever services start, the record still bounds the machine. */
  lemma PowerLossKeepsSound(w: World, x: World)
    requires Sound(w) && LosesPower(w, x)
    ensures Sound(x)
  {
    BootKeepsSound(w, x.present);
    hide SetupRecord, Bounded, Boots;
  }

  lemma PowerLossDetermined(committed: bool, w: World, x: World)
    requires Determined(committed, w) && LosesPower(w, x)
    ensures Determined(committed, x)
  {
    hide LeadsRecord;
  }

  /** Nothing is left, and nothing can come back. */
  predicate Emptied(w: World) { w.shown == Snapshot(None, None) && w.alternatives == {} && w.present == {} }

  /** The machine runs under a durable record that says so. */
  predicate Completed(w: World) {
    && w.shown.current.Some? && w.shown.current.value.phase == Records.Running
    && w.alternatives == {} && w.present == Holds(Records.Running)
  }

  /** What can be observed before a fault-free finish that decides whether it completes. */
  predicate Finishable(w: World, installed: Release, prerequisites: Option<Tunnel>) {
    && Recoverable(w.shown, installed)
    && (Heads(w.shown, FinishSetup) ==> Startable(w.shown, prerequisites, w.present))
  }

  /** One recovery of whatever is stored. It goes the way the durable record heads, and no other. */
  method Attempt(reliable: bool, installed: Release, prerequisites: Option<Tunnel>, w: World,
                 ghost side: Option<bool>, ghost log: seq<Event>)
    returns (x: World, outcome: Result<Outcome>, ghost after: seq<Event>)
    requires Sound(w) && Orderly(log) && (side.Some? ==> Determined(side.value, w))
    ensures Sound(x) && Orderly(after) && log <= after && (side.Some? ==> Determined(side.value, x))
    ensures outcome.Ok? ==> Finishable(w, installed, prerequisites)
    ensures reliable && Finishable(w, installed, prerequisites) ==> outcome.Ok?
    ensures outcome.Ok? && Heads(w.shown, Records.Cleanup) ==> outcome.value == CleanedUp && Emptied(x)
    ensures outcome.Ok? && Heads(w.shown, FinishSetup) ==> outcome.value == RunningConnectionPending && Completed(x)
  {
    hide Sound, Orderly, PermitsSuccessor, SetupAuthority, Holds, Drivable;
    var host := new Host(reliable, installed, prerequisites, w, side, log);
    var installation := new Installation(host);
    var p := installation.ReviewFinish();
    if p.Err? {
      return w, Err, log;
    }
    outcome := installation.Execute(p.value, true);
    x := host.w;
    after := host.log;
  }

  /**
   Any number of interrupted recoveries, power losses and services coming and going,
   from any sound files and machine, then one recovery without faults. It completes
   exactly when what it finds is finishable: with an empty machine and no record if the
   files head for cleanup, Running if they head for completion. What is determined at
   the start stays so.
   */
  method Recover(start: World, interruptions: nat, installed: Release, prerequisites: Option<Tunnel>,
                 ghost side: Option<bool>)
    returns (last: World, final: World, outcome: Result<Outcome>, ghost log: seq<Event>)
    requires Sound(start) && (side.Some? ==> Determined(side.value, start))
    ensures Sound(last) && Sound(final) && Orderly(log)
    ensures outcome.Ok? <==> Finishable(last, installed, prerequisites)
    ensures outcome.Ok? ==> Heads(last.shown, Records.Cleanup) || Heads(last.shown, FinishSetup)
    ensures outcome.Ok? && Heads(last.shown, Records.Cleanup) ==> outcome.value == CleanedUp && Emptied(final)
    ensures outcome.Ok? && Heads(last.shown, FinishSetup) ==>
      outcome.value == RunningConnectionPending && Completed(final)
    ensures side.Some? ==>
      && Determined(side.value, last)
      && (outcome.Ok? ==> Heads(last.shown, if side.value then FinishSetup else Records.Cleanup))
  {
    hide Sound, Orderly, Determined, Holds, LosesPower, Emptied, Completed, PermitsSuccessor, SetupAuthority;
    last := start;
    log := [];
    assert Orderly(log) by { NothingLogged(); }
    for i := 0 to interruptions
      invariant Sound(last) && Orderly(log) && (side.Some? ==> Determined(side.value, last))
    {
      last := Interlude(last, side);
      var ended;
      var available: Option<Tunnel> := *;
      last, ended, log := Attempt(false, installed, available, last, side, log);
    }
    last := Interlude(last, side);
    final, outcome, log := Attempt(true, installed, prerequisites, last, side, log);
    if side.Some? {
      SideShown(side.value, last);
    }
  }

  /** Anything that happens between two runs. */
  method Interlude(w: World, ghost side: Option<bool>) returns (x: World)
    requires Sound(w) && (side.Some? ==> Determined(side.value, w))
    ensures Sound(x) && (side.Some? ==> Determined(side.value, x))
  {
    hide Sound, Determined, LosesPower, Boots;
    x := w;
    var y: World := *;
    if Elapses(x, y) {
      BootKeepsSound(x, y.present);
      if side.Some? {
        ElapsesDetermined(side.value, x, y);
      }
      x := y;
    }
    y := *;
    if LosesPower(x, y) {
      PowerLossKeepsSound(x, y);
      if side.Some? {
        PowerLossDetermined(side.value, x, y);
      }
      x := y;
    }
  }

  lemma ElapsesDetermined(committed: bool, w: World, x: World)
    requires Determined(committed, w) && Elapses(w, x)
    ensures Determined(committed, x)
  {
    hide Leads, Boots;
  }

  lemma SideShown(committed: bool, w: World)
    requires Determined(committed, w)
    ensures Heads(w.shown, Records.Cleanup) ==> !committed
    ensures Heads(w.shown, FinishSetup) ==> committed
  {
    hide PermitsSuccessor;
  }

  lemma NothingLogged()
    ensures Orderly([])
  {
  }

  /** On an empty machine a reviewed setup that meets no fault ends Running, whenever its facts are well formed. */
  method SetUpFromNothing(installed: Release, prerequisites: Option<Tunnel>, address: Address, config: string)
    returns (final: World, done: bool)
    ensures Sound(final)
    ensures done <==> prerequisites.Some? && PublicAddress(address) && LowerHex(config, 64)
    ensures done ==>
      && final.shown.current.Some? && final.shown.current.value.phase == Records.Running
      && final.alternatives == {} && final.present == Holds(Records.Running)
  {
    hide Sound, Orderly, PermitsSuccessor, SetupAuthority, Holds, PublicAddress, LowerHex;
    var empty := World(Snapshot(None, None), {}, {});
    NothingLogged();
    NothingIsSound();
    var host := new Host(true, installed, prerequisites, empty, None, []);
    var installation := new Installation(host);
    var p := installation.ReviewSetup(address, config);
    done := false;
    if p.Ok? {
      NewSetupIsBounded(installed, address, config, prerequisites.value);
      var outcome := installation.Execute(p.value, true);
      done := outcome.Ok?;
    }
    final := host.w;
  }

  /**
   A setup from nothing that may stop anywhere, then any interruptions and one
   recovery without faults: the machine ends empty or Running, by the record found.
   */
  method SetUpThenRecover(installed: Release, prerequisites: Option<Tunnel>, address: Address, config: string,
                          interruptions: nat, available: Option<Tunnel>)
    returns (crashed: World, last: World, final: World, outcome: Result<Outcome>, ghost log: seq<Event>)
    ensures Sound(crashed) && Sound(last) && Sound(final) && Orderly(log)
    ensures outcome.Ok? <==> Finishable(last, installed, available)
    ensures outcome.Ok? ==> Heads(last.shown, Records.Cleanup) || Heads(last.shown, FinishSetup)
    ensures outcome.Ok? && Heads(last.shown, Records.Cleanup) ==> outcome.value == CleanedUp && Emptied(final)
    ensures outcome.Ok? && Heads(last.shown, FinishSetup) ==>
      outcome.value == RunningConnectionPending && Completed(final)
  {
    hide Sound, Orderly, PermitsSuccessor, SetupAuthority, Holds, PublicAddress, LowerHex, Emptied, Completed;
    NothingLogged();
    NothingIsSound();
    var host := new Host(false, installed, prerequisites, World(Snapshot(None, None), {}, {}), None, []);
    var installation := new Installation(host);
    var p := installation.ReviewSetup(address, config);
    if p.Ok? {
      NewSetupIsBounded(installed, address, config, prerequisites.value);
      var ended := installation.Execute(p.value, true);
    }
    crashed := host.w;
    last, final, outcome, log := Recover(crashed, interruptions, installed, available, None);
  }

  lemma NothingIsSound()
    ensures Sound(World(Snapshot(None, None), {}, {}))
  {
  }

  // ----- What every history shows ---------------------------------------------------

  /** Once the durable record is past the commit, no effect is a cleanup step. */
  lemma NoCleanupAfterCommit(log: seq<Event>, i: nat)
    requires Orderly(log) && i < |log| && log[i].record.direction != Records.Cleanup
    ensures SetupStep(log[i].effect, log[i].record) && log[i].effect != RemoveConnector
    ensures log[i].effect.Standard? ==> log[i].effect.op !in STEPS || log[i].effect.op == UnmaskService
  {
    assert InOrder(log[i]);
    NotRemoved(log[i].record, log[i].effect);
    InstallsOnly(NextPhase(log[i].record.phase).value);
  }

  lemma InstallsOnly(p: Phase)
    ensures SetupOperation(p).Some? ==> SetupOperation(p).value !in STEPS || SetupOperation(p).value == UnmaskService
  {
  }

  /**
   A complete but unrenamed stage of the activation commit, or of any later phase,
   leaves a record that no finish may be reviewed for.
   */
  lemma LateStageBlocksRecovery(r: Record, installed: Release)
    requires SetupRecord(r) && r.cleanup == 0 && r.phase != Records.Running && Depth(r.phase) >= 9
    ensures NextSetup(r).Ok?
    ensures !Recoverable(Snapshot(Some(r), Some(Canonical(NextSetup(r).value))), installed)
  {
    NextSetupAdvances(r);
    CleanupPhase(r);
    CleanupPhase(NextSetup(r).value);
    NextDepth(r.phase);
    hide SetupRecord, NextSetup, PermitsSuccessor;
  }

  /** Before that, every stage an interrupted setup or cleanup leaves is recovered from. */
  lemma EarlyStageRecovers(r: Record, n: Record, installed: Release)
    requires SetupRecord(r) && BeforeActivation(r.phase) && SetupAuthority(r, installed)
    requires NextSetup(r) == Ok(n) || NextCleanup(r) == Ok(n)
    requires BeforeActivation(n.phase)
    ensures Recoverable(Snapshot(Some(r), Some(Canonical(n))), installed)
  {
    CleanupPhase(r);
    if NextSetup(r) == Ok(n) {
      Started(r);
      NextSetupAdvances(r);
    } else {
      NextCleanupIs(r, n);
    }
    CleanupPhase(n);
    hide SetupRecord, NextSetup, NextCleanup, HttpSuccessor;
  }

  /** Some action can be reviewed: a setup where there is nothing, a finish where there is something to finish. */
  predicate Reviewable(s: Snapshot, installed: Release) { s == Snapshot(None, None) || Recoverable(s, installed) }

  /**
   The first publication of a setup is the exception: whatever a failure in it leaves,
   with or without a power loss, can be reviewed again if and only if no stage is left.
   */
  lemma FirstStageBlocksReview(r: Record, x: World, y: World, address: Address, config: string, tunnel: Tunnel)
    requires NewTunnelSetup(r.release, address, config, tunnel) == Ok(r)
    requires Publishes(World(Snapshot(None, None), {}, {}), None, r, x)
    requires y == x || LosesPower(x, y)
    ensures Reviewable(y.shown, r.release) <==> y.shown.staged.None?
  {
    FirstRecordRecovers(r, address, config, tunnel);
    hide NewTunnelSetup, Recoverable;
    NoRecordNoRecovery(y.shown, r.release);
  }

  lemma FirstRecordRecovers(r: Record, address: Address, config: string, tunnel: Tunnel)
    requires NewTunnelSetup(r.release, address, config, tunnel) == Ok(r)
    ensures Recoverable(Snapshot(Some(r), None), r.release)
  {
  }

  lemma NoRecordNoRecovery(s: Snapshot, release: Release)
    ensures s.current.None? ==> !Recoverable(s, release)
  {
  }

  /** Such a stage is possible: nothing is current, and the first record is staged in full. */
  lemma FirstStageIsPossible(r: Record)
    ensures Publishes(World(Snapshot(None, None), {}, {}), None, r,
                      World(Snapshot(None, Some(Canonical(r))), {}, {}))
  {
  }

  // ----- Services the boot starts, or does not --------------------------------------

  /** The same files after power has come back, with these services running. */
  function Booted(w: World, running: set<Thing>): (world: World) {
    w.(alternatives := {}, present := w.present - SERVICES + running)
  }

  /**
   Power lost after the proxy was enabled but before that was recorded: the boot may start
   the proxy, and then the next effect refuses it, so no finish completes.
   */
  lemma EarlyStartBlocksFinish(w: World, installed: Release, prerequisites: Option<Tunnel>)
    requires Sound(w) && Heads(w.shown, FinishSetup)
    requires w.shown.current.value.phase == ActivationCommitted && Enabled in w.present
    ensures var x := Booted(w, {ProxyActive});
      LosesPower(w, x) && Sound(x) && !Finishable(x, installed, prerequisites)
    ensures var x := Booted(w, {});
      && LosesPower(w, x) && Sound(x)
      && (Recoverable(w.shown, installed) ==> Finishable(x, installed, w.shown.current.value.tunnel))
  {
    NotMasked(w.shown.current.value, w.present);
    BootedIsPossible(w, {ProxyActive});
    BootedIsPossible(w, {});
    hide Sound, LosesPower, RecoveryRecord;
    RecoversCurrent(w.shown);
  }

  /**
   Power lost once the start of the proxy is recorded: if the boot does not start it again,
   no finish completes, as none starts it a second time.
   */
  lemma MissingStartBlocksFinish(w: World, installed: Release, prerequisites: Option<Tunnel>)
    requires Sound(w) && Heads(w.shown, FinishSetup) && w.shown.current.value.phase == ServiceStarted
    ensures var x := Booted(w, {});
      LosesPower(w, x) && Sound(x) && !Finishable(x, installed, prerequisites)
    ensures var x := Booted(w, {ProxyActive});
      && LosesPower(w, x) && Sound(x)
      && (Recoverable(w.shown, installed) ==> Finishable(x, installed, w.shown.current.value.tunnel))
  {
    NotMasked(w.shown.current.value, w.present);
    BootedIsPossible(w, {ProxyActive});
    BootedIsPossible(w, {});
    hide Sound, LosesPower, RecoveryRecord;
    RecoversCurrent(w.shown);
  }

  lemma RecoversCurrent(s: Snapshot)
    requires RecoveryRecord(s).Ok?
    ensures s.current == Some(RecoveryRecord(s).value)
  {
    hide PermitsSuccessor;
  }

  lemma BootedIsPossible(w: World, running: set<Thing>)
    requires Sound(w) && running <= {ProxyActive}
    requires ProxyActive in running ==> Enabled in w.present && Mask !in w.present
    ensures LosesPower(w, Booted(w, running)) && Sound(Booted(w, running))
  {
    assert Booted(w, running).present - SERVICES == w.present - SERVICES;
    PowerLossKeepsSound(w, Booted(w, running));
    hide Sound;
  }

  /** From the commit on the service is not masked, and once enabled it stays so. */
  lemma NotMasked(r: Record, present: set<Thing>)
    requires Bounded(r, present) && !BeforeActivation(r.phase)
    ensures Mask !in present
    ensures r.phase == ServiceStarted ==> Enabled in present
  {
    assert Mask in present ==> Mask in present - SERVICES;
    if r.phase == ServiceStarted {
      assert Enabled in Holds(r.phase) - SERVICES;
    }
  }

  lemma Started(r: Record)
    requires NextSetup(r).Ok?
    ensures r.cleanup == 0 && r.phase != Records.Running
  {
    hide Valid;
  }

  lemma NextCleanupIs(r: Record, n: Record)
    requires SetupRecord(r) && NextCleanup(r) == Ok(n)
    ensures SetupRecord(n)
  {
    hide Valid;
  }
}
