/**
 The setup driver around the activation commit. Before the commit an interrupted
 setup can only be cleaned up; after it, only driven to Running.
 */
module TunnelSetup {
  import opened Wrappers
  import opened Records
  import opened SetupPlan

  datatype Snapshot = Snapshot(current: Option<Record>, staged: Option<Content>)

  /** The shown record files, those a power loss may bring back, and the machine. */
  datatype World = World(shown: Snapshot, alternatives: set<Snapshot>, present: set<Thing>)

  datatype Event = Performed(effect: Effect, record: Record)

  predicate Fits(s: Snapshot, present: set<Thing>) {
    && (s.current.None? ==> present == {})
    && (s.current.Some? ==> SetupRecord(s.current.value) && Bounded(s.current.value, present))
    && (s.staged.Some? && s.staged.value.Canonical? ==>
          SetupRecord(s.staged.value.record) && Bounded(s.staged.value.record, present))
  }

  ghost predicate Sound(w: World) {
    Fits(w.shown, w.present) && forall s :: s in w.alternatives ==> Fits(s, w.present)
  }

  /** The connector first, then exactly the step the cleanup checkpoint names. */
  predicate CleanupStep(e: Effect, r: Record) {
    r.direction == Records.Cleanup && (e == RemoveConnector || (r.cleanup < 8 && e == Standard(STEPS[r.cleanup])))
  }

  /** An effect on the way from the recorded phase into the next one. */
  predicate SetupStep(e: Effect, r: Record) {
    r.cleanup == 0 && NextPhase(r.phase).Ok? && e in EffectsInto(NextPhase(r.phase).value)
  }

  predicate InOrder(e: Event) {
    CleanupStep(e.effect, e.record) || SetupStep(e.effect, e.record)
  }

  ghost predicate Orderly(log: seq<Event>) { forall i :: 0 <= i < |log| ==> InOrder(log[i]) }

  // ----- Which way a recovery goes --------------------------------------------------

  /** Still to be cleaned up, or already committed. */
  predicate LeadsRecord(committed: bool, r: Record) {
    if committed then r.direction == FinishSetup || r.direction == Idle else r.direction == Records.Cleanup
  }

  predicate Leads(committed: bool, s: Snapshot) {
    && (s.current.Some? ==> LeadsRecord(committed, s.current.value))
    && (committed ==> s.current.Some?)
    && (s.staged.Some? && s.staged.value.Canonical? ==> LeadsRecord(committed, s.staged.value.record))
  }

  /** Everything the disk could show lies on the same side of the activation commit. */
  ghost predicate Determined(committed: bool, w: World) {
    Leads(committed, w.shown) && forall s :: s in w.alternatives ==> Leads(committed, s)
  }

  // ----- Preservation ---------------------------------------------------------------

  /** With one settled record shown, an effect has to respect only that record. */
  lemma EffectKeeps(w: World, r: Record, after: set<Thing>)
    requires w.shown == Snapshot(Some(r), None) && w.alternatives == {} && SetupRecord(r) && Bounded(r, after)
    ensures Sound(w.(present := after))
  {
    hide SetupRecord, Bounded;
  }

  function Lift(r: Option<Record>): (snapshot: Snapshot) { Snapshot(r, None) }

  predicate Publishes(w: World, expected: Option<Record>, next: Record, x: World) {
    var staged := Some(Canonical(next));
    && x.present == w.present
    && (|| x == w
        || (w.shown == Lift(expected) && x == w.(shown := w.shown.(staged := Some(Torn))))
        || ((w.shown == Lift(expected) || w.shown == Snapshot(expected, staged))
            && (|| x == w.(shown := Snapshot(expected, staged))
                || (x.shown == Lift(Some(next))
                    && x.alternatives <= w.alternatives
                       + {Lift(expected), Snapshot(expected, Some(Torn)), Snapshot(expected, staged)}))))
  }

  /** What deleting the record of a finished cleanup may leave. */
  predicate Deletes(w: World, x: World) {
    && x.present == w.present && x.shown in {w.shown, w.shown.(current := None), Snapshot(None, None)}
    && x.alternatives <= w.alternatives + {w.shown, w.shown.(current := None)}
  }

  lemma PublishKeeps(w: World, expected: Option<Record>, next: Record, x: World)
    requires Sound(w) && Publishes(w, expected, next, x)
    requires SetupRecord(next) && Bounded(next, w.present)
    ensures Sound(x)
  {
    hide SetupRecord, Bounded;
  }

  lemma PublishDetermined(committed: bool, w: World, expected: Option<Record>, next: Record, x: World)
    requires Determined(committed, w) && Publishes(w, expected, next, x) && LeadsRecord(committed, next)
    requires w.shown.current == expected
    ensures Determined(committed, x)
  {
    hide LeadsRecord;
  }

  class Host {
    const reliable: bool
    const installed: Release
    /** The authenticated token and binary, if they can be read at all. */
    const prerequisites: Option<Tunnel>
    /** The side of the commit this run is known to be on, if any. */
    ghost const side: Option<bool>
    var w: World
    ghost var log: seq<Event>

    ghost predicate Valid()
      reads this
    {
      Sound(w) && Orderly(log) && (side.Some? ==> Determined(side.value, w))
    }

    constructor (reliable: bool, installed: Release, prerequisites: Option<Tunnel>, w: World,
                 ghost side: Option<bool>, ghost log: seq<Event>)
      requires Sound(w) && Orderly(log) && (side.Some? ==> Determined(side.value, w))
      ensures Valid() && this.reliable == reliable && this.w == w && this.log == log
      ensures this.installed == installed && this.prerequisites == prerequisites && this.side == side
    {
      this.side := side;
      this.reliable := reliable;
      this.installed := installed;
      this.prerequisites := prerequisites;
      this.w := w;
      this.log := log;
    }

    method Call() returns (ok: bool)
      ensures reliable ==> ok
    {
      if reliable {
        return true;
      }
      ok := *;
    }

    ghost method Log(e: Event)
      requires Valid() && InOrder(e)
      modifies this`log
      ensures Valid() && log == old(log) + [e]
    {
      hide InOrder, Sound;
      log := log + [e];
    }

    method ReadSnapshot() returns (s: Result<Snapshot>)
      ensures s.Ok? ==> s.value == w.shown && w.shown.staged != Some(Torn)
      ensures reliable ==> (s.Ok? <==> w.shown.staged != Some(Torn))
    {
      var ok := Call();
      s := if ok && w.shown.staged != Some(Torn) then Ok(w.shown) else Err;
    }

    method Synchronize(expected: Record) returns (ok: bool)
      requires Valid()
      modifies this`w
      ensures Valid() && w.shown == old(w).shown && w.present == old(w).present
      ensures ok ==> w.shown.current == Some(expected) && w.alternatives == {}
      ensures !ok ==> w == old(w)
      ensures reliable && w.shown.current == Some(expected) ==> ok
    {
      ok := Call();
      ok := ok && w.shown.current == Some(expected);
      if ok {
        hide Fits, Orderly, Leads;
        w := w.(alternatives := {});
      }
    }

    /** Fresh observation of the machine: nothing, everything for activation, stopped, running. */
    method Inspect() returns (empty: bool, ready: bool, stopped: bool, running: bool, ok: bool)
      ensures ok ==>
        && (empty <==> w.present == {})
        && (ready <==> Holds(ActivationCommitted) <= w.present)
        && (stopped <==> Enabled !in w.present && Quiet(w.present))
        && (running <==> Holds(Records.Running) <= w.present)
      ensures reliable ==> ok
    {
      ok := Call();
      empty := w.present == {};
      ready := Holds(ActivationCommitted) <= w.present;
      stopped := Enabled !in w.present && Quiet(w.present);
      running := Holds(Records.Running) <= w.present;
    }

    /** The whole machine, to be compared with a later look at it. */
    method Fingerprint() returns (seen: Result<set<Thing>>)
      ensures seen.Ok? ==> seen.value == w.present
      ensures reliable ==> seen.Ok?
    {
      var ok := Call();
      seen := if ok then Ok(w.present) else Err;
    }

    /** Limited to recorded resources, under one settled record; idempotent but for enabling a running proxy. */
    method Perform(e: Effect, r: Record) returns (ok: bool)
      requires Valid() && w.shown == Snapshot(Some(r), None) && w.alternatives == {}
      requires CleanupStep(e, r) || SetupStep(e, r)
      modifies this
      ensures Valid() && log == old(log) + [Performed(e, r)]
      ensures w.shown == old(w).shown && w.alternatives == {}
      ensures ok ==> Admits(e, old(w).present) && w.present == Applied(e, old(w).present)
      ensures ok ==> Connects(e) ==> prerequisites == r.tunnel
      ensures reliable ==> (ok <==> Admits(e, old(w).present) && (Connects(e) ==> prerequisites == r.tunnel))
    {
      hide Orderly, SetupRecord, Bounded, CleanupStep, SetupStep, Partly;
      ok := Call();
      ok := ok && Admits(e, w.present) && (Connects(e) ==> prerequisites == r.tunnel);
      Log(Performed(e, r));
      var after: set<Thing> := *;
      if ok {
        EffectBounded(r, e, w.present, Applied(e, w.present));
        EffectKeeps(w, r, Applied(e, w.present));
        w := w.(present := Applied(e, w.present));
      } else if Partly(e, w.present, after) {
        EffectBounded(r, e, w.present, after);
        EffectKeeps(w, r, after);
        w := w.(present := after);
      }
    }

    /** Success is durable; any doubt is a failure that ends the run. */
    method Publish(expected: Option<Record>, next: Record) returns (ok: bool)
      requires Valid() && w.shown.current == expected
      requires SetupRecord(next) && Bounded(next, w.present)
      requires side.Some? ==> LeadsRecord(side.value, next)
      modifies this`w
      ensures Valid() && w.present == old(w).present
      ensures ok ==> w.shown == Snapshot(Some(next), None) && w.alternatives == {}
      ensures Publishes(old(w), expected, next, w)
      ensures reliable && old(w).shown.staged in {None, Some(Canonical(next))} ==> ok
    {
      hide SetupRecord, Bounded, Orderly, Fits, Leads;
      ok := Call();
      if ok && w.shown.staged in {None, Some(Canonical(next))} {
        var x := World(Snapshot(Some(next), None), {}, w.present);
        PublishKeeps(w, expected, next, x);
        if side.Some? {
          PublishDetermined(side.value, w, expected, next, x);
        }
        w := x;
        return true;
      }
      var x: World := *;
      if Publishes(w, expected, next, x) {
        PublishKeeps(w, expected, next, x);
        if side.Some? {
          PublishDetermined(side.value, w, expected, next, x);
        }
        w := x;
      }
      return false;
    }

    /** Deletes the record of a finished cleanup, record before stage. */
    method RemoveCompletedCleanup(expected: Record) returns (ok: bool)
      requires Valid() && w.shown.current == Some(expected)
      requires expected.direction == Records.Cleanup && expected.cleanup == 8 && w.present == {}
      requires side != Some(true)
      modifies this`w
      ensures Valid() && w.present == {}
      ensures ok ==> w.shown == Snapshot(None, None) && w.alternatives == {}
      ensures reliable && old(w).shown.staged in {None, Some(Canonical(expected))} ==> ok
    {
      hide SetupRecord, Bounded, Orderly;
      ok := Call();
      ok := ok && w.shown.staged in {None, Some(Canonical(expected))};
      if ok {
        w := World(Snapshot(None, None), {}, {});
        return;
      }
      var x: World := *;
      if Deletes(w, x) {
        w := x;
      }
    }
  }

  lemma EffectBounded(r: Record, e: Effect, before: set<Thing>, after: set<Thing>)
    requires SetupRecord(r) && Bounded(r, before) && (CleanupStep(e, r) || SetupStep(e, r))
    requires Partly(e, before, after) || after == Applied(e, before)
    ensures Bounded(r, after)
  {
    if CleanupStep(e, r) {
      CleanupPhase(r);
      StepsOnlyRemove(e, r.cleanup);
      hide SetupRecord, Adds, Removes, Holds, Ahead, Bounded;
      assert after <= before;
      CleaningBounded(r, e, before, after);
    } else {
      NotRemoved(r, e);
      PartlyBounded(r, e, before, after);
    }
  }

  lemma NotRemoved(r: Record, e: Effect)
    requires NextPhase(r.phase).Ok? && e in EffectsInto(NextPhase(r.phase).value)
    ensures e != RemoveConnector
  {
  }

  lemma CleanupPhase(r: Record)
    requires SetupRecord(r)
    ensures r.direction == Records.Cleanup <==> BeforeActivation(r.phase)
    ensures r.direction == FinishSetup <==> 10 <= Depth(r.phase) < 13
    ensures r.cleanup <= 8 && (r.direction != Records.Cleanup ==> r.cleanup == 0)
  {
    hide Resources, OperationShape, SchemaShape;
  }

  lemma StepsOnlyRemove(e: Effect, c: nat)
    requires e == RemoveConnector || (c < 8 && e == Standard(STEPS[c]))
    ensures Adds(e) == {}
  {
  }

  // ----- Recovery -------------------------------------------------------------------

  function RecoveryRecord(s: Snapshot): (result: Result<Record>) {
    if s.current.None? then Err
    else
      var r := s.current.value;
      match s.staged
      case None => Ok(r)
      case Some(Torn) => Err
      case Some(Canonical(n)) =>
        if r.direction != Records.Cleanup || n.direction != Records.Cleanup || !PermitsSuccessor(r, n) then Err
        else Ok(r)
  }

  predicate SetupAuthority(r: Record, release: Release) {
    && r.schema == 1 && r.tunnel.Some? && PendingChange(r).None? && r.release == release
    && r.lockUnit && r.cleanup <= 8 && r.direction != Removal
  }

  function NewTunnelSetup(release: Release, address: Address, config: string, tunnel: Tunnel)
    : (result: Result<Record>)
  {
    var r := Record(1, OwnershipRecorded, Records.Cleanup, release, true, address, config, [], None, 0, 0, None,
                    None, None, None, None, false, None, None, true, Some(tunnel), None, false, false);
    Validated(r.(resources := Resources(r)))
  }

  datatype Outcome = Cancelled | CleanedUp | RunningConnectionPending

  // ----- Driving forward ------------------------------------------------------------

  /** Nothing runs. */
  predicate Quiet(present: set<Thing>) { ProxyActive !in present && ConnectorActive !in present }

  /** What the next phases demand of the services: none runs before the commit, and the proxy is started only once. */
  predicate Drivable(p: Phase, present: set<Thing>) {
    && (BeforeActivation(p) ==> Quiet(present))
    && (p == ActivationCommitted ==> ProxyActive !in present)
    && (p == ServiceStarted ==> ProxyActive in present)
  }

  /** The machine holds everything its durable phase stands for, and its services let the setup go on. */
  predicate Complete(p: Phase, present: set<Thing>) { Holds(p) - SERVICES <= present && Drivable(p, present) }

  /** All the effects into the next phase, in order. */
  function Entered(p: Phase, present: set<Thing>): (members: set<Thing>)
    requires NextPhase(p).Ok?
  {
    var next := NextPhase(p).value;
    if SetupOperation(next).Some? then Applied(Standard(SetupOperation(next).value), present)
    else if next == ActivationCommitted then Applied(InstallConnector, present)
    else Applied(StartConnector, Applied(InstallConnector, present))
  }

  lemma EffectsAdvance(p: Phase, present: set<Thing>)
    requires NextPhase(p).Ok? && present - SERVICES <= Holds(p) + Ahead(p) && Linked(present)
    ensures var after, next := Entered(p, present), NextPhase(p).value;
      && after - SERVICES <= Holds(next)
      && (Holds(p) - SERVICES <= present ==> after - SERVICES == Holds(next) - SERVICES)
  {
    var next := NextPhase(p).value;
    EffectsComplete(p);
    LastPhases(p);
    LeftoversGo(p);
    if SetupOperation(next).Some? {
      hide Holds, Ahead, Adds, Removes, Linked;
      var e := Standard(SetupOperation(next).value);
      Replaced(Holds(p), Ahead(p), Removes(e), Adds(e), present);
    } else {
      ConnectorChanges();
      hide Holds, Ahead, Adds, Removes, Linked;
      var added := if next == ActivationCommitted then {ConnectorUnit} else {ConnectorUnit, ConnectorActive};
      Replaced(Holds(p), Ahead(p), {}, added, present);
      assert Entered(p, present) == present - {} + added;
      assert Holds(next) == Holds(p) - {} + added;
    }
  }

  lemma Replaced(holds: set<Thing>, ahead: set<Thing>, removed: set<Thing>, added: set<Thing>, present: set<Thing>)
    requires present - SERVICES <= holds + ahead && ahead <= added + removed
    ensures var after, next := present - removed + added, holds - removed + added;
      && after - SERVICES <= next
      && (holds - SERVICES <= present ==> after - SERVICES == next - SERVICES)
  {
    hide *;
    var after, next := present - removed + added, holds - removed + added;
    forall t | t in after - SERVICES ensures t in next {
      assert t in present ==> t in present - SERVICES;
    }
    if holds - SERVICES <= present {
      assert forall t :: t in next - SERVICES ==> (t in holds ==> t in holds - SERVICES);
    }
  }

  lemma ConnectorChanges()
    ensures Removes(InstallConnector) == {} && Adds(InstallConnector) == {ConnectorUnit}
    ensures Removes(StartConnector) == {} && Adds(StartConnector) == {ConnectorActive}
  {
  }

  /** What the effects into the next phase do to the services. */
  lemma EffectsWake(p: Phase, present: set<Thing>)
    requires NextPhase(p).Ok?
    ensures var after, next := Entered(p, present), NextPhase(p).value;
      && (ProxyActive in after <==> ProxyActive in present || next == ServiceStarted)
      && (ConnectorActive in after <==> ConnectorActive in present || next == Records.Running)
  {
    LastPhases(p);
  }

  lemma LastPhases(p: Phase)
    requires NextPhase(p).Ok?
    ensures var next := NextPhase(p).value;
      SetupOperation(next).None? ==> next == ActivationCommitted || next == Records.Running
  {
  }

  /** What an effect may leave behind it either adds for good or removes in the end. */
  lemma LeftoversGo(p: Phase)
    requires NextPhase(p).Ok?
    ensures var next := NextPhase(p).value;
      && (SetupOperation(next).Some? ==>
            Ahead(p) <= Adds(Standard(SetupOperation(next).value)) + Removes(Standard(SetupOperation(next).value)))
      && (next == ActivationCommitted ==> Ahead(p) <= Adds(InstallConnector))
      && (next == Records.Running ==> Ahead(p) <= Adds(InstallConnector) + Adds(StartConnector))
  {
  }

  ghost predicate Driving(h: Host, r: Record)
    reads h
  {
    && h.Valid() && h.w.shown == Snapshot(Some(r), None) && h.w.alternatives == {}
    && SetupRecord(r) && r.cleanup == 0 && r.phase != Records.Running
    && h.side != Some(false)
  }

  lemma ShownBounded(h: Host, r: Record)
    requires h.Valid() && h.w.shown.current == Some(r)
    ensures SetupRecord(r) && Bounded(r, h.w.present)
  {
    hide SetupRecord, Bounded;
  }

  /** A machine on which the effects into a phase are done, and seen to be done where that is checked. */
  predicate Reached(p: Phase, present: set<Thing>) {
    && present - SERVICES <= Holds(p) && Linked(present)
    && (!BeforeActivation(p) ==> Holds(p) - SERVICES <= present)
    && (p == ActivationCommitted ==> Quiet(present))
    && (p == ServiceStarted ==> ProxyActive in present)
    && (p == Records.Running ==> present == Holds(p))
  }

  /** The effects into the next phase leave every link its services need. */
  lemma StaysWithin(r: Record, before: set<Thing>, after: set<Thing>)
    requires Bounded(r, before) && Bounded(r, after) && NextPhase(r.phase).Ok? && after == Entered(r.phase, before)
    ensures Linked(after)
    ensures !BeforeActivation(r.phase) ==> Holds(r.phase) - SERVICES <= before
  {
    hide Holds, Ahead, Entered;
  }

  /** The order of the phases around the commit. */
  lemma PhaseOrder(p: Phase)
    requires NextPhase(p).Ok?
    ensures var next := NextPhase(p).value;
      && (next == ActivationCommitted <==> p == ServiceUnmasked)
      && (next == ServiceEnabled <==> p == ActivationCommitted)
      && (next == ServiceStarted <==> p == ServiceEnabled)
      && (next == Records.Running <==> p == ServiceStarted)
      && (BeforeActivation(next) ==> BeforeActivation(p))
      && (BeforeActivation(p) ==> BeforeActivation(next) || next == ActivationCommitted)
  {
  }

  /** What the two inspections of a setup say about a machine that is no further than its phase. */
  lemma ObservedNow(p: Phase, present: set<Thing>)
    requires present - SERVICES <= Holds(p) && Linked(present)
    ensures p == ActivationCommitted ==> Enabled !in present
    ensures p == Records.Running ==>
      (Holds(p) <= present <==> Holds(p) - SERVICES <= present && ProxyActive in present && ConnectorActive in present)
    ensures p == Records.Running && Holds(p) <= present ==> present == Holds(p)
  {
    assert Enabled in present ==> Enabled in present - SERVICES;
    if p == Records.Running {
      assert SERVICES <= Holds(p);
    }
  }

  /** Without faults every effect into the next phase is carried out. */
  method CarryOut(h: Host, r: Record, next: Phase) returns (ok: bool)
    requires Driving(h, r) && NextPhase(r.phase) == Ok(next)
    modifies h
    ensures h.Valid() && old(h.log) <= h.log
    ensures ok ==> Driving(h, r) && h.w.present == Entered(r.phase, old(h.w.present))
    ensures ok ==> next == ServiceEnabled ==> ProxyActive !in old(h.w.present)
    ensures ok && next in {ActivationCommitted, Records.Running} ==> h.prerequisites == r.tunnel
    ensures (h.reliable && h.prerequisites == r.tunnel
             && (next == ServiceEnabled ==> ProxyActive !in old(h.w.present))) ==> ok
  {
    hide SetupRecord, Bounded, Sound, Orderly, Adds, Removes;
    LastPhases(r.phase);
    if SetupOperation(next).Some? {
      ok := h.Perform(Standard(SetupOperation(next).value), r);
    } else {
      ok := h.Call();
      if !ok || h.prerequisites != r.tunnel {
        return false;
      }
      ok := h.Perform(InstallConnector, r);
      if ok && next == Records.Running {
        ok := h.Perform(StartConnector, r);
      }
    }
  }

  /** Everything between a durable phase and the publication of the next. */
  method Enter(h: Host, r: Record, next: Phase) returns (ok: bool)
    requires Driving(h, r) && NextPhase(r.phase) == Ok(next)
    modifies h
    ensures h.Valid() && old(h.log) <= h.log
    ensures ok ==> Driving(h, r) && Reached(next, h.w.present)
    ensures ok && !BeforeActivation(r.phase) ==> Drivable(r.phase, old(h.w.present))
    ensures ok && next in {ActivationCommitted, Records.Running} ==> h.prerequisites == r.tunnel
    ensures h.reliable && h.prerequisites == r.tunnel && Complete(r.phase, old(h.w.present)) ==>
      ok && Complete(next, h.w.present)
  {
    hide SetupRecord, Sound;
    ShownBounded(h, r);
    ghost var present := h.w.present;
    EffectsAdvance(r.phase, present);
    EffectsWake(r.phase, present);
    PhaseOrder(r.phase);
    hide Bounded, Orderly, Holds, Ahead, Adds, Removes, Linked, Entered;
    ok := CarryOut(h, r, next);
    if !ok {
      return;
    }
    ShownBounded(h, r);
    StaysWithin(r, present, h.w.present);
    if next == ActivationCommitted || next == Records.Running {
      var empty, ready, stopped, running, observed := h.Inspect();
      ObservedNow(next, h.w.present);
      ok := observed && (if next == Records.Running then running else ready && stopped);
    }
  }

  lemma EnteredBounded(r: Record, n: Record, present: set<Thing>)
    requires n.cleanup == 0 && Reached(n.phase, present)
    ensures Bounded(n, present)
  {
    hide Holds, Ahead;
  }

  /** One phase: its effects, then its record. */
  method Step(h: Host, r: Record) returns (n: Result<Record>)
    requires Driving(h, r) && (h.side == Some(true) ==> !BeforeActivation(r.phase))
    modifies h
    ensures h.Valid() && old(h.log) <= h.log
    ensures n.Ok? ==>
      && NextPhase(r.phase) == Ok(n.value.phase) && n.value.tunnel == r.tunnel
      && n.value.cleanup == 0 && SetupRecord(n.value)
      && h.w.shown == Snapshot(Some(n.value), None) && h.w.alternatives == {}
      && Reached(n.value.phase, h.w.present)
    ensures n.Ok? && !BeforeActivation(r.phase) ==> Drivable(r.phase, old(h.w.present))
    ensures n.Ok? && n.value.phase in {ActivationCommitted, Records.Running} ==> h.prerequisites == r.tunnel
    ensures h.reliable && h.prerequisites == r.tunnel && Complete(r.phase, old(h.w.present)) ==>
      n.Ok? && Complete(n.value.phase, h.w.present)
  {
    hide SetupRecord, Bounded, Sound, Orderly, Holds, Ahead, Complete, Reached, Drivable;
    NextSetupAdvances(r);
    NextDepth(r.phase);
    n := NextSetup(r);
    var next := n.value;
    ShownBounded(h, r);
    hide NextSetup;
    var ok := Enter(h, r, next.phase);
    if !ok {
      return Err;
    }
    EnteredBounded(r, next, h.w.present);
    SideOf(next);
    ok := h.Publish(Some(r), next);
    if !ok {
      return Err;
    }
  }

  /** Ends Running, or stops at the first failure with the record no more than one phase behind. */
  method Drive(h: Host, start: Record) returns (outcome: Result<Outcome>)
    requires h.Valid() && h.w.shown == Snapshot(Some(start), None)
    requires SetupRecord(start) && start.cleanup == 0 && start.phase != Records.Running
    requires h.side != Some(false) && (h.side == Some(true) ==> !BeforeActivation(start.phase))
    modifies h
    ensures h.Valid() && old(h.log) <= h.log
    ensures outcome.Ok? ==>
      && outcome.value == RunningConnectionPending
      && h.w.shown.current.Some? && h.w.shown.current.value.phase == Records.Running
      && h.w.shown.staged.None? && h.w.alternatives == {} && h.w.present == Holds(Records.Running)
    ensures outcome.Ok? && !BeforeActivation(start.phase) ==> Drivable(start.phase, old(h.w.present))
    ensures h.reliable && h.prerequisites == start.tunnel && Complete(start.phase, old(h.w.present)) ==> outcome.Ok?
  {
    hide SetupRecord, Bounded, Sound, Orderly, Holds, Ahead, Complete, Drivable;
    var ok := h.Synchronize(start);
    if !ok {
      return Err;
    }
    var r := start;
    ghost var due := h.reliable && h.prerequisites == start.tunnel && Complete(start.phase, h.w.present);
    ghost var drivable := BeforeActivation(start.phase) || Drivable(start.phase, h.w.present);
    while true
      invariant Driving(h, r) && old(h.log) <= h.log && r.tunnel == start.tunnel
      invariant h.side == Some(true) ==> !BeforeActivation(r.phase)
      invariant due ==> Complete(r.phase, h.w.present)
      invariant drivable || (r == start && h.w.present == old(h.w.present))
      decreases 13 - Depth(r.phase)
    {
      NextDepth(r.phase);
      var n := Step(h, r);
      if n.Err? {
        return Err;
      }
      r := n.value;
      if r.phase == Records.Running {
        return Ok(RunningConnectionPending);
      }
    }
  }

  lemma NextDepth(p: Phase)
    ensures NextPhase(p).Ok? ==> Depth(NextPhase(p).value) == Depth(p) + 1 <= 13
    ensures NextPhase(p).Ok? ==> (Depth(NextPhase(p).value) == 13 <==> NextPhase(p).value == Records.Running)
  {
  }

  lemma SideOf(r: Record)
    requires SetupRecord(r)
    ensures LeadsRecord(!BeforeActivation(r.phase), r)
  {
    hide Resources, OperationShape, SchemaShape;
  }

  // ----- Cleaning up ----------------------------------------------------------------

  ghost predicate Cleaning(h: Host, r: Record)
    reads h
  {
    && h.Valid() && h.w.shown == Snapshot(Some(r), None) && h.w.alternatives == {}
    && SetupRecord(r) && r.direction == Records.Cleanup && r.cleanup <= 8
    && h.side != Some(true)
  }

  predicate Disconnected(present: set<Thing>) { ConnectorUnit !in present && ConnectorActive !in present }

  lemma StepCleans(r: Record, before: set<Thing>, after: set<Thing>)
    requires SetupRecord(r) && r.direction == Records.Cleanup && r.cleanup < 8 && Bounded(r, before)
    requires Disconnected(before) && after == Applied(Standard(STEPS[r.cleanup]), before)
    ensures Bounded(r.(cleanup := r.cleanup + 1), after) && Disconnected(after)
  {
    CleanupPhase(r);
    NotEnabled(r, before);
    StepsOnlyRemove(Standard(STEPS[r.cleanup]), r.cleanup);
    hide SetupRecord, Holds, Ahead, Adds, Removes;
    CleanedFurther(r.cleanup, before, after);
    hide Cleaned;
  }

  lemma CleanedFurther(c: nat, before: set<Thing>, after: set<Thing>)
    requires Cleaned(c, before) && c < 8 && Disconnected(before)
    requires after == before - Removes(Standard(STEPS[c]))
    ensures Cleaned(c + 1, after)
  {
    hide Removes;
    forall i | 0 <= i < c + 1 ensures Removes(Standard(STEPS[i])) !! after {
      assert i < c ==> Removes(Standard(STEPS[i])) !! before;
    }
  }

  /** One cleanup step, then its checkpoint. */
  method Clean(h: Host, r: Record) returns (n: Result<Record>)
    requires Cleaning(h, r) && r.cleanup < 8 && Disconnected(h.w.present)
    modifies h
    ensures h.Valid() && old(h.log) <= h.log
    ensures n.Ok? ==>
      n.value == r.(cleanup := r.cleanup + 1) && Cleaning(h, n.value) && Disconnected(h.w.present)
    ensures h.reliable ==> n.Ok?
  {
    hide SetupRecord, Bounded, Sound, Orderly, Holds, Ahead, Adds, Removes;
    ShownBounded(h, r);
    ghost var before := h.w.present;
    var ok := h.Perform(Standard(STEPS[r.cleanup]), r);
    if !ok {
      return Err;
    }
    StepCleans(r, before, h.w.present);
    NextCleanupAdvances(r);
    n := NextCleanup(r);
    hide NextCleanup;
    ok := h.Publish(Some(r), n.value);
    if !ok {
      return Err;
    }
  }

  /** The stage an interrupted setup or cleanup may have left is settled first. */
  method Replay(h: Host, r: Record) returns (n: Result<Record>)
    requires h.Valid() && h.w.shown.current == Some(r) && SetupRecord(r) && r.direction == Records.Cleanup
    requires h.side != Some(true)
    modifies h`w
    ensures h.Valid() && h.log == old(h.log) && h.w.present == old(h.w.present)
    ensures n.Ok? ==> Cleaning(h, n.value)
    ensures h.reliable && RecoveryRecord(old(h.w.shown)).Ok? ==> n.Ok?
  {
    hide SetupRecord, Bounded, Sound, Orderly, PermitsSuccessor;
    CleanupPhase(r);
    var s := h.ReadSnapshot();
    if s.Err? {
      return Err;
    }
    var record := r;
    if s.value.staged.Some? {
      var next := s.value.staged.value.record;
      if !PermitsSuccessor(r, next) || next.direction != Records.Cleanup {
        return Err;
      }
      StagedBounded(h);
      CleanupPhase(next);
      var ok := h.Publish(Some(r), next);
      if !ok {
        return Err;
      }
      record := next;
    }
    var ok := h.Synchronize(record);
    if !ok {
      return Err;
    }
    return Ok(record);
  }

  lemma StagedBounded(h: Host)
    requires h.Valid() && h.w.shown.staged.Some? && h.w.shown.staged.value.Canonical?
    ensures SetupRecord(h.w.shown.staged.value.record) && Bounded(h.w.shown.staged.value.record, h.w.present)
  {
    hide SetupRecord, Bounded;
  }

  /** Ends with an empty machine and no record. */
  method CleanUp(h: Host, start: Record) returns (outcome: Result<Outcome>)
    requires h.Valid() && h.w.shown.current == Some(start) && SetupRecord(start)
    requires start.direction == Records.Cleanup && h.side != Some(true)
    modifies h
    ensures h.Valid() && old(h.log) <= h.log
    ensures outcome.Ok? ==>
      && outcome.value == CleanedUp
      && h.w.shown == Snapshot(None, None) && h.w.alternatives == {} && h.w.present == {}
    ensures h.reliable && RecoveryRecord(old(h.w.shown)).Ok? ==> outcome.Ok?
  {
    hide SetupRecord, Bounded, Sound, Orderly, Holds, Ahead, Adds, Removes;
    var replayed := Replay(h, start);
    if replayed.Err? {
      return Err;
    }
    var r := replayed.value;
    ghost var before := h.w.present;
    var ok := h.Perform(RemoveConnector, r);
    if !ok {
      return Err;
    }
    ConnectorGone(before);
    while r.cleanup < 8
      invariant Cleaning(h, r) && Disconnected(h.w.present) && old(h.log) <= h.log
      decreases 8 - r.cleanup
    {
      var n := Clean(h, r);
      if n.Err? {
        return Err;
      }
      r := n.value;
    }
    ShownBounded(h, r);
    CleanupPhase(r);
    FullyCleanedIsEmpty(r, h.w.present);
    var empty, ready, stopped, running, observed := h.Inspect();
    if !observed || !empty {
      return Err;
    }
    ok := h.RemoveCompletedCleanup(r);
    if !ok {
      return Err;
    }
    empty, ready, stopped, running, observed := h.Inspect();
    if !observed || !empty {
      return Err;
    }
    return Ok(CleanedUp);
  }

  lemma ConnectorGone(before: set<Thing>)
    ensures Disconnected(Applied(RemoveConnector, before))
  {
  }

  // ----- Review and execute ---------------------------------------------------------

  datatype Kind = Setup(record: Record) | Finish

  /** A review is worth what was stored, and what was found on the machine, when it was made. */
  datatype Prepared = Prepared(owner: nat, snapshot: Snapshot, inspection: set<Thing>, release: Release, kind: Kind)

  /** What was reviewed is still so. */
  predicate Current(p: Prepared, installed: Release, w: World) {
    p.snapshot == w.shown && p.inspection == w.present && p.release == installed
  }

  /** The way a recovery of these files goes. */
  predicate Heads(s: Snapshot, way: RecoveryDirection) {
    RecoveryRecord(s).Ok? && RecoveryRecord(s).value.direction == way
  }

  /** The recorded prerequisites are there, and the services allow the next phase. */
  predicate Startable(s: Snapshot, prerequisites: Option<Tunnel>, present: set<Thing>)
    requires RecoveryRecord(s).Ok?
  {
    var r := RecoveryRecord(s).value;
    prerequisites == r.tunnel && Drivable(r.phase, present)
  }

  /** From the commit on, only the services can be missing. */
  lemma CompleteLate(r: Record, present: set<Thing>)
    requires Bounded(r, present) && !BeforeActivation(r.phase)
    ensures Complete(r.phase, present) <==> Drivable(r.phase, present)
  {
    hide Holds, Drivable;
  }

  /** Whether a finish may be reviewed at all. */
  predicate Recoverable(s: Snapshot, release: Release) {
    && RecoveryRecord(s).Ok?
    && SetupAuthority(RecoveryRecord(s).value, release)
    && (Heads(s, Records.Cleanup) || Heads(s, FinishSetup))
  }

  /** A first record is refused only for its address or its configuration digest. */
  lemma NewSetupNeeds(release: Release, address: Address, config: string, tunnel: Tunnel)
    ensures NewTunnelSetup(release, address, config, tunnel).Ok? <==> PublicAddress(address) && LowerHex(config, 64)
  {
    var r := Record(1, OwnershipRecorded, Records.Cleanup, release, true, address, config, [], None, 0, 0, None,
                    None, None, None, None, false, None, None, true, Some(tunnel), None, false, false);
    FootprintDepends(r, r.(resources := Resources(r)));
    hide Resources;
  }

  lemma NewSetupIsBounded(release: Release, address: Address, config: string, tunnel: Tunnel)
    requires NewTunnelSetup(release, address, config, tunnel).Ok?
    ensures var r := NewTunnelSetup(release, address, config, tunnel).value;
      && SetupRecord(r) && Bounded(r, {}) && Complete(r.phase, {})
      && r.phase == OwnershipRecorded && r.cleanup == 0 && r.tunnel == Some(tunnel)
      && r.direction == Records.Cleanup
  {
    var r := NewTunnelSetup(release, address, config, tunnel).value;
    hide Resources, OperationShape;
    assert Holds(OwnershipRecorded) == {};
  }

  class Installation {
    const host: Host
    var owner: nat

    constructor (host: Host)
      ensures this.host == host && owner == 0
    {
      this.host := host;
      owner := 0;
    }

    method ReviewSetup(address: Address, config: string) returns (p: Result<Prepared>)
      requires host.Valid()
      modifies this
      ensures owner == old(owner) + 1
      ensures p.Ok? ==>
        && p.value.owner == owner && p.value.snapshot == host.w.shown == Snapshot(None, None)
        && p.value.inspection == host.w.present == {}
        && p.value.release == host.installed && host.prerequisites.Some?
        && p.value.kind.Setup?
        && NewTunnelSetup(host.installed, address, config, host.prerequisites.value) == Ok(p.value.kind.record)
      ensures host.reliable ==>
        (p.Ok? <==> host.w.shown == Snapshot(None, None) && host.prerequisites.Some?
                    && PublicAddress(address) && LowerHex(config, 64))
    {
      hide NewTunnelSetup, PublicAddress, LowerHex;
      owner := owner + 1;
      var s := host.ReadSnapshot();
      if s.Err? || s.value != Snapshot(None, None) {
        return Err;
      }
      var seen := host.Fingerprint();
      if seen != Ok({}) || host.prerequisites.None? {
        return Err;
      }
      var record := NewTunnelSetup(host.installed, address, config, host.prerequisites.value);
      NewSetupNeeds(host.installed, address, config, host.prerequisites.value);
      var ok := host.Call();
      if !ok || record.Err? {
        return Err;
      }
      p := Ok(Prepared(owner, s.value, seen.value, host.installed, Setup(record.value)));
    }

    method ReviewFinish() returns (p: Result<Prepared>)
      requires host.Valid()
      modifies this
      ensures owner == old(owner) + 1
      ensures p.Ok? ==>
        && p.value == Prepared(owner, host.w.shown, host.w.present, host.installed, Finish)
        && Recoverable(host.w.shown, host.installed)
      ensures host.reliable ==> (p.Ok? <==> Recoverable(host.w.shown, host.installed))
    {
      hide PermitsSuccessor, SetupAuthority;
      owner := owner + 1;
      var s := host.ReadSnapshot();
      var seen := host.Fingerprint();
      if s.Err? || seen.Err? || !Recoverable(s.value, host.installed) {
        return Err;
      }
      p := Ok(Prepared(owner, s.value, seen.value, host.installed, Finish));
    }

    /** The way of a finish is the durable record's direction and nothing else. */
    method Execute(p: Prepared, approved: bool) returns (outcome: Result<Outcome>)
      requires host.Valid()
      requires p.kind.Setup? ==>
        && p.snapshot == Snapshot(None, None)
        && exists address, config, tunnel ::
             NewTunnelSetup(p.release, address, config, tunnel) == Ok(p.kind.record)
      requires p.kind.Setup? ==> host.side.None?
      modifies this, host
      ensures host.Valid() && old(host.log) <= host.log && owner == old(owner) + 1
      ensures old(owner) != p.owner || !approved ==> host.w == old(host.w) && host.log == old(host.log)
      ensures old(owner) != p.owner ==> outcome.Err?
      ensures old(owner) == p.owner ==> (outcome == Ok(Cancelled) <==> !approved)
      ensures !Current(p, host.installed, old(host.w)) && approved ==>
        outcome.Err? && host.w == old(host.w) && host.log == old(host.log)
      ensures approved && p.kind.Setup? && host.prerequisites != p.kind.record.tunnel ==>
        outcome.Err? && host.w == old(host.w) && host.log == old(host.log)
      ensures outcome.Ok? && outcome.value == CleanedUp ==>
        && p.kind.Finish? && Heads(p.snapshot, Records.Cleanup)
        && host.w.shown == Snapshot(None, None) && host.w.alternatives == {} && host.w.present == {}
      ensures outcome.Ok? && outcome.value == RunningConnectionPending ==>
        && (p.kind.Finish? ==>
              && Heads(p.snapshot, FinishSetup)
              && Startable(p.snapshot, host.prerequisites, old(host.w.present)))
        && host.w.shown.current.Some? && host.w.shown.current.value.phase == Records.Running
        && host.w.shown.staged.None? && host.w.alternatives == {}
        && host.w.present == Holds(Records.Running)
      ensures outcome.Ok? && p.kind.Finish? && approved ==>
        Recoverable(p.snapshot, p.release) && p.snapshot == old(host.w.shown)
      ensures (host.reliable && old(owner) == p.owner && approved && Current(p, host.installed, old(host.w))
               && p.kind.Finish? && Recoverable(p.snapshot, p.release)
               && (Heads(p.snapshot, FinishSetup) ==>
                     Startable(p.snapshot, host.prerequisites, old(host.w.present)))) ==>
        outcome.Ok?
      ensures (host.reliable && old(owner) == p.owner && approved && Current(p, host.installed, old(host.w))
               && p.kind.Setup? && host.prerequisites == p.kind.record.tunnel) ==>
        outcome.Ok?
    {
      hide SetupRecord, Bounded, Sound, Orderly, Holds, Ahead, Adds, Removes, PermitsSuccessor, NewTunnelSetup,
           Complete, Drivable;
      var valid := owner == p.owner;
      owner := owner + 1;
      if !valid {
        return Err;
      }
      if !approved {
        return Ok(Cancelled);
      }
      var s := host.ReadSnapshot();
      if s != Ok(p.snapshot) || host.installed != p.release {
        return Err;
      }
      var seen := host.Fingerprint();
      if seen != Ok(p.inspection) {
        return Err;
      }
      match p.kind {
        case Setup(record) =>
          outcome := Begin(record, p.release);
        case Finish =>
          outcome := Resume(p.snapshot, p.release);
      }
    }

    method Begin(record: Record, release: Release) returns (outcome: Result<Outcome>)
      requires host.Valid() && host.w.shown == Snapshot(None, None) && host.side.None?
      requires exists address, config, tunnel :: NewTunnelSetup(release, address, config, tunnel) == Ok(record)
      modifies host
      ensures host.Valid() && old(host.log) <= host.log
      ensures outcome.Ok? ==>
        && outcome.value == RunningConnectionPending
        && host.w.shown.current.Some? && host.w.shown.current.value.phase == Records.Running
        && host.w.shown.staged.None? && host.w.alternatives == {}
        && host.w.present == Holds(Records.Running)
      ensures host.prerequisites != record.tunnel ==>
        outcome.Err? && host.w == old(host.w) && host.log == old(host.log)
      ensures host.reliable && host.prerequisites == record.tunnel ==> outcome.Ok?
    {
      hide SetupRecord, Bounded, Orderly, Holds, Ahead, Adds, Removes, NewTunnelSetup, Complete;
      var address, config, tunnel :| NewTunnelSetup(release, address, config, tunnel) == Ok(record);
      NewSetupIsBounded(release, address, config, tunnel);
      if host.prerequisites != record.tunnel {
        return Err;
      }
      assert host.w.present == {};
      hide Sound;
      var ok := host.Publish(None, record);
      if !ok {
        return Err;
      }
      outcome := Drive(host, record);
    }

    method Resume(s: Snapshot, release: Release) returns (outcome: Result<Outcome>)
      requires host.Valid() && host.w.shown == s && s.staged != Some(Torn)
      modifies host
      ensures host.Valid() && old(host.log) <= host.log
      ensures outcome.Ok? ==> Recoverable(s, release) && outcome.value != Cancelled
      ensures outcome.Ok? && outcome.value == CleanedUp ==>
        && Heads(s, Records.Cleanup)
        && host.w.shown == Snapshot(None, None) && host.w.alternatives == {} && host.w.present == {}
      ensures outcome.Ok? && outcome.value == RunningConnectionPending ==>
        && Heads(s, FinishSetup) && Startable(s, host.prerequisites, old(host.w.present))
        && host.w.shown.current.Some? && host.w.shown.current.value.phase == Records.Running
        && host.w.shown.staged.None? && host.w.alternatives == {}
        && host.w.present == Holds(Records.Running)
      ensures (host.reliable && Recoverable(s, release)
               && (Heads(s, FinishSetup) ==> Startable(s, host.prerequisites, old(host.w.present)))) ==> outcome.Ok?
    {
      hide Bounded, Orderly, Holds, Ahead, Adds, Removes, PermitsSuccessor, SetupAuthority, Complete, Drivable;
      var record := RecoveryRecord(s);
      if record.Err? || !SetupAuthority(record.value, release) {
        return Err;
      }
      var r := record.value;
      ShownBounded(host, r);
      CleanupPhase(r);
      SideMatches(host, r);
      hide SetupRecord, Sound;
      if r.direction == Records.Cleanup {
        outcome := CleanUp(host, r);
      } else if r.direction == FinishSetup {
        if host.prerequisites != r.tunnel {
          return Err;
        }
        NotRunning(r.phase);
        CompleteLate(r, host.w.present);
        outcome := Drive(host, r);
      } else {
        outcome := Err;
      }
    }
  }

  lemma NotRunning(p: Phase)
    ensures Depth(p) == 13 <==> p == Records.Running
  {
  }

  lemma SideMatches(h: Host, r: Record)
    requires h.Valid() && h.w.shown.current == Some(r)
    ensures h.side.Some? ==> LeadsRecord(h.side.value, r)
  {
    hide Sound, Orderly;
  }
}
