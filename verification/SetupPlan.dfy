/**
 Tunnel setup as values: what every phase leaves on the machine, what each effect
 may touch, and how the eight cleanup steps take it away again.
 */
module SetupPlan {
  import opened Wrappers
  import opened Records

  /** What setup leaves on the machine; Checked says that the installed configuration passed its check. */
  datatype Thing =
    | AptKey | AptSource | Mask | LockUnit | Artifact | Package | PackageIdentity | Hold
    | StateDirectory | Configuration | Checked | Enabled | ProxyActive | ConnectorUnit | ConnectorActive

  datatype Operation =
    | InstallAptKey | InstallAptSource | MaskService | InstallPackage | HoldPackage | CreateStateDirectory
    | InstallConfiguration | ValidateConfiguration | UnmaskService | EnableService | StartService
    | StopDisableService | RemovePackageArtifact | RemovePackage | RemoveConfigurationState
    | RemovePackageIdentity | RemoveAptSource | RemoveAptKey

  datatype Effect = Standard(op: Operation) | InstallConnector | StartConnector | RemoveConnector

  const STEPS: seq<Operation> := [
    StopDisableService, UnmaskService, RemovePackageArtifact, RemovePackage,
    RemoveConfigurationState, RemovePackageIdentity, RemoveAptSource, RemoveAptKey]

  function Adds(e: Effect): (members: set<Thing>) {
    match e
    case InstallConnector => {ConnectorUnit}
    case StartConnector => {ConnectorActive}
    case RemoveConnector => {}
    case Standard(op) =>
      match op
      case InstallAptKey => {AptKey}
      case InstallAptSource => {AptSource}
      case MaskService => {Mask, LockUnit}
      case InstallPackage => {Package, PackageIdentity}
      case HoldPackage => {Hold}
      case CreateStateDirectory => {StateDirectory}
      case InstallConfiguration => {Configuration}
      case ValidateConfiguration => {Checked}
      case EnableService => {Enabled}
      case StartService => {ProxyActive}
      case _ => {}
  }

  function Removes(e: Effect): (members: set<Thing>) {
    match e
    case RemoveConnector => {ConnectorUnit, ConnectorActive}
    case InstallConnector => {}
    case StartConnector => {}
    case Standard(op) =>
      match op
      case InstallPackage => {Artifact}
      case InstallConfiguration => {Checked}
      case UnmaskService => {Mask}
      case StopDisableService => {Enabled, ProxyActive, LockUnit}
      case RemovePackageArtifact => {Artifact}
      case RemovePackage => {Package, Hold}
      case RemoveConfigurationState => {Configuration, Checked, StateDirectory}
      case RemovePackageIdentity => {PackageIdentity}
      case RemoveAptSource => {AptSource}
      case RemoveAptKey => {AptKey}
      case _ => {}
  }

  /** What an effect, complete or interrupted, may leave behind. */
  function Touches(e: Effect): (members: set<Thing>) {
    Adds(e) + (if e == Standard(InstallPackage) then {Artifact} else {})
  }

  function Applied(e: Effect, present: set<Thing>): (members: set<Thing>) { present - Removes(e) + Adds(e) }

  /** Interruption may come anywhere between before and after; the connector is stopped before its files go. */
  predicate Partly(e: Effect, before: set<Thing>, after: set<Thing>) {
    && before - Removes(e) <= after <= before + Touches(e)
    && (e == RemoveConnector && ConnectorActive in after ==> before <= after)
  }

  /** Enabling refuses a proxy that already runs; every other effect may be repeated. */
  predicate Admits(e: Effect, present: set<Thing>) {
    e == Standard(EnableService) ==> ProxyActive !in present
  }

  /** Effects on the connector ask for the recorded token and binary themselves. */
  predicate Connects(e: Effect) { e == InstallConnector || e == StartConnector }

  // ----- Services -------------------------------------------------------------------

  /** What runs, as opposed to what is on disk. */
  const SERVICES: set<Thing> := {ProxyActive, ConnectorActive}

  /** A service runs only where its unit is linked for the boot to start. */
  predicate Linked(present: set<Thing>) {
    && (ProxyActive in present ==> Enabled in present)
    && (ConnectorActive in present ==> ConnectorUnit in present)
  }

  /** Any service may stop, and any linked one that is not masked may start. */
  predicate Boots(before: set<Thing>, after: set<Thing>) {
    && after - SERVICES == before - SERVICES
    && (ProxyActive in after ==> Enabled in before && Mask !in before)
    && (ConnectorActive in after ==> ConnectorUnit in before)
  }

  function SetupOperation(p: Phase): (found: Option<Operation>) {
    match p
    case AptKeyInstalled => Some(InstallAptKey)
    case AptSourceInstalled => Some(InstallAptSource)
    case ServiceMasked => Some(MaskService)
    case PackageInstalled => Some(InstallPackage)
    case PackageHeld => Some(HoldPackage)
    case StateDirectoryCreated => Some(CreateStateDirectory)
    case ConfigurationInstalled => Some(InstallConfiguration)
    case ConfigurationValidated => Some(ValidateConfiguration)
    case ServiceUnmasked => Some(UnmaskService)
    case ServiceEnabled => Some(EnableService)
    case ServiceStarted => Some(StartService)
    case _ => None
  }

  /** The effects that lead into a phase, in order. */
  function EffectsInto(p: Phase): (effects: seq<Effect>) {
    (if SetupOperation(p).Some? then [Standard(SetupOperation(p).value)] else [])
    + (if p == ActivationCommitted then [InstallConnector] else [])
    + (if p == Records.Running then [InstallConnector, StartConnector] else [])
  }

  function Depth(p: Phase): (n: nat) {
    match p
    case OwnershipRecorded => 0
    case AptKeyInstalled => 1
    case AptSourceInstalled => 2
    case ServiceMasked => 3
    case PackageInstalled => 4
    case PackageHeld => 5
    case StateDirectoryCreated => 6
    case ConfigurationInstalled => 7
    case ConfigurationValidated => 8
    case ServiceUnmasked => 9
    case ActivationCommitted => 10
    case ServiceEnabled => 11
    case ServiceStarted => 12
    case Running => 13
    case RemovalCommitted => 14
  }

  /** Whether a machine whose phase at this depth is complete holds a thing. */
  predicate Held(t: Thing, depth: nat) {
    match t
    case AptKey => depth >= 1
    case AptSource => depth >= 2
    case Mask => 3 <= depth < 9
    case LockUnit => depth >= 3
    case Artifact => false
    case Package => depth >= 4
    case PackageIdentity => depth >= 4
    case Hold => depth >= 5
    case StateDirectory => depth >= 6
    case Configuration => depth >= 7
    case Checked => depth >= 8
    case ConnectorUnit => depth >= 10
    case Enabled => depth >= 11
    case ProxyActive => depth >= 12
    case ConnectorActive => depth >= 13
  }

  /** Exactly what a machine holds when a phase is complete. */
  function Holds(p: Phase): (members: set<Thing>) { set t: Thing | Held(t, Depth(p)) }

  /** What the way into the next phase may already have touched. */
  function Ahead(p: Phase): (members: set<Thing>) {
    match NextPhase(p)
    case Ok(next) =>
      (if SetupOperation(next).Some? then Touches(Standard(SetupOperation(next).value)) else {})
      + (if next == ActivationCommitted then {ConnectorUnit} else {})
      + (if next == Records.Running then {ConnectorUnit, ConnectorActive} else {})
    case Err => {}
  }

  predicate BeforeActivation(p: Phase) { Depth(p) < 10 }

  // ----- A record and its machine ---------------------------------------------------

  /** What the first c cleanup steps, and the connector removal before them, have taken away. */
  predicate Cleaned(c: nat, present: set<Thing>) {
    && c <= 8
    && (c > 0 ==> ConnectorUnit !in present && ConnectorActive !in present)
    && forall i :: 0 <= i < c ==> Removes(Standard(STEPS[i])) !! present
  }

  /**
   What is on disk is at most one phase's effects ahead of the durable phase, and from
   activation on also never behind it. Services come and go where they are linked.
   */
  predicate Bounded(r: Record, present: set<Thing>) {
    && present - SERVICES <= Holds(r.phase) + Ahead(r.phase) && Linked(present)
    && (if BeforeActivation(r.phase) then Cleaned(r.cleanup, present) else Holds(r.phase) - SERVICES <= present)
  }

  predicate SetupRecord(r: Record) {
    && Valid(r) && r.schema == 1 && r.phase != RemovalCommitted && r.direction != Removal
  }

  // ----- Lemmas ---------------------------------------------------------------------

  lemma EffectsReach(p: Phase)
    requires NextPhase(p).Ok?
    ensures forall e :: e in EffectsInto(NextPhase(p).value) ==> Touches(e) <= Ahead(p)
    ensures Depth(NextPhase(p).value) == Depth(p) + 1
  {
    hide Adds, Removes;
    var next := NextPhase(p).value;
    if next == ActivationCommitted || next == Records.Running {
      ConnectorTouches();
    }
  }

  lemma ConnectorTouches()
    ensures Touches(InstallConnector) == {ConnectorUnit} && Touches(StartConnector) == {ConnectorActive}
  {
  }

  /** Membership after an effect, thing by thing. */
  predicate After(e: Effect, t: Thing, before: bool) { t in Adds(e) || (before && t !in Removes(e)) }

  lemma StandardCompletes(p: Phase, t: Thing)
    requires NextPhase(p).Ok? && SetupOperation(NextPhase(p).value).Some?
    ensures After(Standard(SetupOperation(NextPhase(p).value).value), t, Held(t, Depth(p)))
            == Held(t, Depth(NextPhase(p).value))
  {
  }

  lemma ConnectorCompletes(t: Thing)
    ensures After(InstallConnector, t, Held(t, 9)) == Held(t, 10)
    ensures After(StartConnector, t, After(InstallConnector, t, Held(t, 12))) == Held(t, 13)
  {
  }

  /** Carrying out a phase's effects takes a complete machine to the next complete machine. */
  lemma EffectsComplete(p: Phase)
    requires NextPhase(p).Ok?
    ensures var next := NextPhase(p).value;
      && (SetupOperation(next).Some? ==> Applied(Standard(SetupOperation(next).value), Holds(p)) == Holds(next))
      && (next == ActivationCommitted ==> Applied(InstallConnector, Holds(p)) == Holds(next))
      && (next == Records.Running ==> Applied(StartConnector, Applied(InstallConnector, Holds(p))) == Holds(next))
  {
    var next := NextPhase(p).value;
    hide Adds, Removes, Held;
    if SetupOperation(next).Some? {
      forall t: Thing
        ensures t in Applied(Standard(SetupOperation(next).value), Holds(p)) <==> t in Holds(next)
      {
        StandardCompletes(p, t);
      }
    } else {
      forall t: Thing
        ensures next == ActivationCommitted ==> (t in Applied(InstallConnector, Holds(p)) <==> t in Holds(next))
        ensures next == Records.Running ==>
          (t in Applied(StartConnector, Applied(InstallConnector, Holds(p))) <==> t in Holds(next))
      {
        ConnectorCompletes(t);
      }
    }
  }

  /** A partial effect on the way into the next phase keeps the bound. */
  lemma PartlyBounded(r: Record, e: Effect, before: set<Thing>, after: set<Thing>)
    requires Bounded(r, before) && r.cleanup == 0 && NextPhase(r.phase).Ok?
    requires e in EffectsInto(NextPhase(r.phase).value)
    requires Partly(e, before, after) || after == Applied(e, before)
    ensures Bounded(r, after)
  {
    EffectsReach(r.phase);
    StaysLinked(r, e, before, after);
    if !BeforeActivation(r.phase) {
      LateEffectsOnlyAdd(r.phase, e);
    }
    hide Holds, Ahead, EffectsInto, Adds, Removes, Linked;
  }

  lemma LateEffectsOnlyAdd(p: Phase, e: Effect)
    requires !BeforeActivation(p) && NextPhase(p).Ok? && e in EffectsInto(NextPhase(p).value)
    ensures Removes(e) == {}
  {
  }

  /** A setup effect starts a service only where the phases before have linked it. */
  lemma StaysLinked(r: Record, e: Effect, before: set<Thing>, after: set<Thing>)
    requires Bounded(r, before) && NextPhase(r.phase).Ok? && e in EffectsInto(NextPhase(r.phase).value)
    requires Partly(e, before, after) || after == Applied(e, before)
    ensures Linked(after)
  {
    SetupUnlinksNothing(r.phase, e);
    StartsAreLinked(r.phase, e);
    hide Holds, Ahead, EffectsInto, Adds, Removes;
  }

  lemma SetupUnlinksNothing(p: Phase, e: Effect)
    requires NextPhase(p).Ok? && e in EffectsInto(NextPhase(p).value)
    ensures Enabled !in Removes(e) && ConnectorUnit !in Removes(e)
  {
  }

  lemma StartsAreLinked(p: Phase, e: Effect)
    requires NextPhase(p).Ok? && e in EffectsInto(NextPhase(p).value)
    ensures ProxyActive in Touches(e) ==> Enabled in Holds(p) && !BeforeActivation(p)
    ensures ConnectorActive in Touches(e) ==> ConnectorUnit in Holds(p) && !BeforeActivation(p)
  {
    StartingEffects(e);
    StartingPhases(p, e);
    hide Adds, Touches, EffectsInto;
  }

  lemma StartingEffects(e: Effect)
    ensures ProxyActive in Touches(e) ==> e == Standard(StartService)
    ensures ConnectorActive in Touches(e) ==> e == StartConnector
  {
  }

  lemma StartingPhases(p: Phase, e: Effect)
    requires NextPhase(p).Ok? && e in EffectsInto(NextPhase(p).value)
    ensures e == Standard(StartService) ==> p == ServiceEnabled
    ensures e == StartConnector ==> p == ServiceStarted
  {
  }

  /** Before the commit the proxy is not enabled, so nothing starts it. */
  lemma NotEnabled(r: Record, present: set<Thing>)
    requires Bounded(r, present) && BeforeActivation(r.phase)
    ensures Enabled !in present && ProxyActive !in present
  {
    NotYetEnabled(r.phase);
    hide Holds, Ahead;
  }

  lemma NotYetEnabled(p: Phase)
    requires BeforeActivation(p)
    ensures Enabled !in Holds(p) + Ahead(p)
  {
  }

  /** No boot takes the machine out of its bound, whichever services it starts. */
  lemma BootKeepsBounded(r: Record, before: set<Thing>, after: set<Thing>)
    requires Bounded(r, before) && Boots(before, after)
    ensures Bounded(r, after)
  {
    BootKeepsLinks(before, after);
    if BeforeActivation(r.phase) {
      BootKeepsCleaned(r.cleanup, before, after);
    }
    hide Holds, Ahead, Linked, Cleaned;
    assert forall t :: t in Holds(r.phase) - SERVICES && t in before - SERVICES ==> t in after - SERVICES;
  }

  lemma BootKeepsLinks(before: set<Thing>, after: set<Thing>)
    requires Boots(before, after)
    ensures Linked(after)
  {
    assert Enabled in before - SERVICES ==> Enabled in after - SERVICES;
    assert ConnectorUnit in before - SERVICES ==> ConnectorUnit in after - SERVICES;
  }

  lemma BootKeepsCleaned(c: nat, before: set<Thing>, after: set<Thing>)
    requires Cleaned(c, before) && Boots(before, after)
    ensures Cleaned(c, after)
  {
    forall i, t: Thing | 0 <= i < c && t in Removes(Standard(STEPS[i])) ensures t !in after {
      assert Removes(Standard(STEPS[i])) !! before;
      if t == ProxyActive {
        StopsDisable(i);
      } else if t !in SERVICES {
        assert t in after ==> t in after - SERVICES;
      }
    }
    assert ConnectorUnit in after ==> ConnectorUnit in after - SERVICES;
    forall i | 0 <= i < c ensures Removes(Standard(STEPS[i])) !! after {
    }
  }

  /** The cleanup step that stops the proxy disables it too, and none stops the connector. */
  lemma StopsDisable(i: nat)
    requires i < 8
    ensures ProxyActive in Removes(Standard(STEPS[i])) ==> Enabled in Removes(Standard(STEPS[i]))
    ensures ConnectorActive !in Removes(Standard(STEPS[i]))
  {
  }

  /** Cleaning only takes away, and no service outlives the link it was started by. */
  lemma CleaningBounded(r: Record, e: Effect, before: set<Thing>, after: set<Thing>)
    requires Bounded(r, before) && BeforeActivation(r.phase)
    requires e == RemoveConnector || exists i :: 0 <= i < 8 && e == Standard(STEPS[i])
    requires (Partly(e, before, after) || after == Applied(e, before)) && after <= before
    ensures Bounded(r, after)
  {
    NotEnabled(r, before);
    ConnectorStopsFirst(e, before, after);
    hide Holds, Ahead, Applied, Partly;
  }

  lemma ConnectorStopsFirst(e: Effect, before: set<Thing>, after: set<Thing>)
    requires Linked(before) && (Partly(e, before, after) || after == Applied(e, before)) && after <= before
    requires e == RemoveConnector || exists i :: 0 <= i < 8 && e == Standard(STEPS[i])
    ensures ConnectorActive in after ==> ConnectorUnit in after
  {
    if e.Standard? {
      assert ConnectorUnit !in Removes(e);
    }
  }

  /**
   Under a record past the activation commit, with any services running, the machine holds the
   held package with its identity, the configuration in the form that passed its check, the lock
   unit, the connector and the repository files, and neither the mask nor the package artifact.
   */
  lemma CommittedMachine(r: Record, present: set<Thing>)
    requires Bounded(r, present) && r.phase in {ActivationCommitted, ServiceEnabled, ServiceStarted, Records.Running}
    ensures {AptKey, AptSource, LockUnit, Package, PackageIdentity, Hold, StateDirectory, Configuration, Checked,
             ConnectorUnit} <= present
    ensures Mask !in present && Artifact !in present
    ensures r.phase in {ServiceEnabled, ServiceStarted, Records.Running} ==> Enabled in present
  {
    hide Linked;
    assert forall t :: t in Holds(r.phase) - SERVICES ==> t in present;
    assert Mask in present ==> Mask in present - SERVICES;
    assert Artifact in present ==> Artifact in present - SERVICES;
  }

  /** Validation never stops an unfinished setup from advancing. */
  lemma NextSetupAdvances(r: Record)
    requires SetupRecord(r) && r.cleanup == 0 && r.phase != Records.Running
    ensures NextPhase(r.phase).Ok?
    ensures NextSetup(r) ==
      Ok(r.(phase := NextPhase(r.phase).value, direction := PhaseDirection(NextPhase(r.phase).value)))
    ensures SetupRecord(NextSetup(r).value)
  {
    var p := NextPhase(r.phase).value;
    var n := r.(phase := p, direction := PhaseDirection(p));
    RestIsSame(r, n);
    hide Resources;
    assert OperationShape(n);
  }

  lemma RestIsSame(r: Record, n: Record)
    requires n == r.(phase := n.phase, direction := n.direction, cleanup := n.cleanup)
    ensures Resources(n) == Resources(r)
  {
    RecordFirst(r);
    RecordFirst(n);
    SameOwned(r, n);
  }

  lemma NextCleanupAdvances(r: Record)
    requires SetupRecord(r) && r.direction == Records.Cleanup && r.cleanup < 8
    ensures NextCleanup(r) == Ok(r.(cleanup := r.cleanup + 1))
    ensures SetupRecord(NextCleanup(r).value)
  {
    var n := r.(cleanup := r.cleanup + 1);
    RestIsSame(r, n);
    hide Resources;
    assert OperationShape(n);
  }

  /** After all eight steps and the connector, a machine that was bounded is empty. */
  lemma FullyCleanedIsEmpty(r: Record, present: set<Thing>)
    requires Bounded(r, present) && BeforeActivation(r.phase) && r.cleanup == 8
    ensures present == {}
  {
    forall t: Thing ensures t !in present {
      if Step(t) < 8 {
        assert t in Removes(Standard(STEPS[Step(t)]));
      }
    }
  }

  /** Which cleanup step takes a thing away. */
  function Step(t: Thing): (n: nat) {
    match t
    case Enabled => 0
    case ProxyActive => 0
    case LockUnit => 0
    case Mask => 1
    case Artifact => 2
    case Package => 3
    case Hold => 3
    case StateDirectory => 4
    case Configuration => 4
    case Checked => 4
    case PackageIdentity => 5
    case AptSource => 6
    case AptKey => 7
    case _ => 8
  }
}
