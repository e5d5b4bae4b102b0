/**
 Complete removal, as values: the ordered effects a record calls for, how one
 authority is selected from the three files that may hold it, and what a
 checkpoint is worth.
 */
module RemovalPlan {
  import opened Wrappers
  import opened Records
  import Footprint

  datatype Effect =
    | DedicatedTunnel | ClientIdentitySubscription | ClientIdentityTarget | PreparedSubscription
    | SubscriptionRotation | SubscriptionRepair | ServingRuntime | SubscriptionFirewall | RetiredHttps
    | ProxyStartup
    | StopDisableProxy | PackageArtifact | PackageHold | Package | ConfigurationState
    | PackageIdentity | AptSource | AptKey
    | Executable | InstalledRecord

  const PROXY_EFFECTS: seq<Effect> := [
    StopDisableProxy, PackageArtifact, PackageHold, Package,
    ConfigurationState, PackageIdentity, AptSource, AptKey]

  // ----- Effects of a record ------------------------------------------------------

  function TunnelEffects(r: Record): (effects: seq<Effect>) {
    if r.tunnel.Some? then [DedicatedTunnel] else []
  }

  function RotationEffects(r: Record): (effects: seq<Effect>) {
    if r.rotation.None? then []
    else if r.rotation.value.subscription.Some?
    then [ClientIdentitySubscription, SubscriptionRepair, ClientIdentityTarget]
    else [ClientIdentityTarget]
  }

  predicate RepairSelected(r: Record) { r.repair.Some? && r.repair.value.target.Some? }

  predicate ServingRemoved(r: Record) {
    (r.rotation.Some? && r.rotation.value.subscription.Some?) || RepairSelected(r)
  }

  /** Everything optional, in the order it is removed and before anything else. */
  function AuxiliaryEffects(r: Record): (effects: seq<Effect>) {
    TunnelEffects(r) + RotationEffects(r)
    + (if r.enablement.Some? then [PreparedSubscription] else [])
    + (if r.link.Some? then [SubscriptionRotation] else [])
    + (if RepairSelected(r) then [SubscriptionRepair] else [])
    + (if r.serving.Some? && !ServingRemoved(r) then [ServingRuntime] else [])
    + (if r.subscription.Some? then [SubscriptionFirewall] else [])
    + (if r.retired then [RetiredHttps] else [])
  }

  function ProxyCount(r: Record): (n: nat) { Limit(r) - 3 }

  /** Owned by the installation rather than by the product that removes it. */
  predicate ProxySide(r: Record, e: Effect) {
    || e in AuxiliaryEffects(r)
    || (r.startup.Some? && e == ProxyStartup)
    || (r.package && e in PROXY_EFFECTS)
  }

  predicate Planned(r: Record, e: Effect) {
    ProxySide(r, e) || e == Executable || e == InstalledRecord
  }

  ghost predicate ProxyAbsent(r: Record, present: set<Effect>) {
    forall e :: ProxySide(r, e) ==> e !in present
  }

  // ----- What a record owns, and what takes it away ---------------------------------

  /** The record itself, the place it is moved aside to, and its own stage: these go with the authority. */
  predicate RecordFile(res: Resource) { res.OwnershipFile? || res == BaseFile(0) || res == BaseFile(1) }

  /** The effects each of which takes a resource off the machine; four of them clear the shared serving files. */
  function Removers(res: Resource): (effects: set<Effect>) {
    match res
    case OwnershipFile(_) => {}
    case ConfigFile(_) => {ConfigurationState}
    case BaseFile(slot) =>
      if slot == 2 then {PackageArtifact}
      else if slot in {3, 4} then {AptKey}
      else if slot in {5, 6} then {AptSource}
      else if slot == 7 then {Package}
      else if slot == 8 then {PackageHold}
      else if slot == 9 then {ConfigurationState}
      else if slot in {10, 12} then {StopDisableProxy}
      else if slot == 11 then {PackageIdentity}
      else {}
    case ProductFile(slot) => if slot == 0 then {Executable} else {InstalledRecord}
    case LockFile(_) => {StopDisableProxy}
    case TunnelFile(_) => {DedicatedTunnel}
    case ServingFile(_) => {ServingRuntime, PreparedSubscription, SubscriptionRotation, SubscriptionRepair}
    case FirewallUnit(_) => {SubscriptionFirewall, PreparedSubscription}
    case FirewallRule(_) => {SubscriptionFirewall, PreparedSubscription}
    case RetiredFiles => {RetiredHttps}
    case MigrationFiles => {RetiredHttps}
    case EnablementFile(_) => {PreparedSubscription}
    case LinkStagingFile(_) => {SubscriptionRotation}
    case StartupFile(_) => {ProxyStartup}
    case StartupDirectory => {ProxyStartup}
    case StartupNext => {ProxyStartup}
    case TargetFile(_) => {ClientIdentityTarget}
    case TargetFileNext => {ClientIdentityTarget}
    case ConfigNext(_) => {ClientIdentityTarget}
    case StagedArtifact(_) => {ClientIdentitySubscription}
    case IdentityStagingFile(_) => {ClientIdentitySubscription}
  }

  /** Of every owned resource a remover is absent. */
  ghost predicate Gone(resources: seq<Resource>, present: set<Effect>) {
    forall res :: res in resources ==> RecordFile(res) || exists e :: e in Removers(res) && e !in present
  }

  /** Which optional effects a record calls for, one by one. */
  predicate Called(r: Record, e: Effect) {
    match e
    case DedicatedTunnel => r.tunnel.Some?
    case ClientIdentitySubscription => r.rotation.Some? && r.rotation.value.subscription.Some?
    case ClientIdentityTarget => r.rotation.Some?
    case PreparedSubscription => r.enablement.Some?
    case SubscriptionRotation => r.link.Some?
    case SubscriptionRepair =>
      || (r.rotation.Some? && r.rotation.value.subscription.Some?)
      || (r.repair.Some? && r.repair.value.target.Some?)
    case ServingRuntime =>
      && r.serving.Some?
      && (r.rotation.Some? ==> r.rotation.value.subscription.None?)
      && (r.repair.Some? ==> r.repair.value.target.None?)
    case SubscriptionFirewall => r.subscription.Some?
    case RetiredHttps => r.retired
    case _ => false
  }

  /** One part of the optional effects. */
  function Part(r: Record, k: nat): (effects: seq<Effect>) {
    if k == 0 then TunnelEffects(r)
    else if k == 1 then RotationEffects(r)
    else if k == 2 then if r.enablement.Some? then [PreparedSubscription] else []
    else if k == 3 then if r.link.Some? then [SubscriptionRotation] else []
    else if k == 4 then if RepairSelected(r) then [SubscriptionRepair] else []
    else if k == 5 then if r.serving.Some? && !ServingRemoved(r) then [ServingRuntime] else []
    else if k == 6 then if r.subscription.Some? then [SubscriptionFirewall] else []
    else if r.retired then [RetiredHttps] else []
  }

  lemma Parts(r: Record)
    ensures AuxiliaryEffects(r) ==
      Part(r, 0) + Part(r, 1) + Part(r, 2) + Part(r, 3) + Part(r, 4) + Part(r, 5) + Part(r, 6) + Part(r, 7)
  {
    hide TunnelEffects, RotationEffects;
  }

  lemma CalledIn(r: Record, e: Effect)
    ensures Called(r, e) <==>
      || e in Part(r, 0) || e in Part(r, 1) || e in Part(r, 2) || e in Part(r, 3)
      || e in Part(r, 4) || e in Part(r, 5) || e in Part(r, 6) || e in Part(r, 7)
  {
  }

  /** The plan holds exactly the optional effects called for. */
  lemma CalledExactly(r: Record, e: Effect)
    ensures e in AuxiliaryEffects(r) <==> Called(r, e)
  {
    hide *;
    Parts(r);
    CalledIn(r, e);
    Footprint.InSeven(Part(r, 0), Part(r, 1), Part(r, 2), Part(r, 3), Part(r, 4), Part(r, 5), Part(r, 6), e);
    Footprint.In(Part(r, 0) + Part(r, 1) + Part(r, 2) + Part(r, 3) + Part(r, 4) + Part(r, 5) + Part(r, 6),
                 Part(r, 7), e);
  }

  /** The order in which optional effects are carried out. */
  function Rank(e: Effect): (n: nat) {
    match e
    case DedicatedTunnel => 0
    case ClientIdentitySubscription => 1
    case SubscriptionRepair => 2
    case ClientIdentityTarget => 3
    case PreparedSubscription => 4
    case SubscriptionRotation => 5
    case ServingRuntime => 6
    case SubscriptionFirewall => 7
    case RetiredHttps => 8
    case _ => 9
  }

  predicate Ranked(s: seq<Effect>, low: nat, high: nat) {
    && (forall i :: 0 <= i < |s| ==> low <= Rank(s[i]) < high)
    && (forall i, j :: 0 <= i < j < |s| ==> Rank(s[i]) < Rank(s[j]))
  }

  lemma RankedJoin(a: seq<Effect>, b: seq<Effect>, low: nat, middle: nat, high: nat)
    requires Ranked(a, low, middle) && Ranked(b, middle, high) && low <= middle <= high
    ensures Ranked(a + b, low, high)
  {
    hide Rank;
  }

  /** The ranks of each part. */
  function Low(k: nat): (n: nat) {
    if k == 0 then 0 else if k == 1 then 1 else if k == 2 then 4 else if k == 3 then 5
    else if k == 4 then 1 else if k == 5 then 6 else if k == 6 then 7 else 8
  }

  function High(k: nat): (n: nat) {
    if k == 0 then 1 else if k == 1 then 4 else if k == 2 then 5 else if k == 3 then 6
    else if k == 4 then 6 else if k == 5 then 7 else if k == 6 then 8 else 9
  }

  lemma PartRanked(r: Record, k: nat)
    ensures Ranked(Part(r, k), Low(k), High(k))
  {
  }

  /** A repair is the only operation, so it may be removed among the others. */
  lemma RepairAlone(r: Record)
    requires Valid(r)
    ensures Part(r, 4) == [] || (Part(r, 1) == [] && Part(r, 2) == [] && Part(r, 3) == [])
  {
    OneOperation(r);
    hide *;
    if r.rotation.Some? || r.enablement.Some? || r.link.Some? {
      NoRepairPart(r);
    } else {
      NoOtherPart(r);
    }
  }

  lemma NoRepairPart(r: Record)
    requires r.repair.None?
    ensures Part(r, 4) == []
  {
  }

  lemma NoOtherPart(r: Record)
    requires r.rotation.None? && r.enablement.None? && r.link.None?
    ensures Part(r, 1) == [] && Part(r, 2) == [] && Part(r, 3) == []
  {
  }

  /** The connector goes first, the serving files before their firewall, and no effect is asked for twice. */
  lemma RemovedInOrder(r: Record)
    requires Valid(r)
    ensures Ranked(AuxiliaryEffects(r), 0, 9)
  {
    hide Valid, AuxiliaryEffects, Part, Ranked;
    forall k: nat | k < 8 ensures Ranked(Part(r, k), Low(k), High(k)) {
      PartRanked(r, k);
    }
    RepairAlone(r);
    Parts(r);
    RankedJoin(Part(r, 1), Part(r, 2), 1, 4, 5);
    RankedJoin(Part(r, 1) + Part(r, 2), Part(r, 3), 1, 5, 6);
    var middle := Part(r, 1) + Part(r, 2) + Part(r, 3) + Part(r, 4);
    if Part(r, 4) == [] {
      assert middle == Part(r, 1) + Part(r, 2) + Part(r, 3);
    } else {
      assert middle == Part(r, 4);
    }
    RankedJoin(Part(r, 0), middle, 0, 1, 6);
    assert Part(r, 0) + middle == Part(r, 0) + Part(r, 1) + Part(r, 2) + Part(r, 3) + Part(r, 4);
    RankedJoin(Part(r, 0) + middle, Part(r, 5), 0, 6, 7);
    RankedJoin(Part(r, 0) + middle + Part(r, 5), Part(r, 6), 0, 7, 8);
    RankedJoin(Part(r, 0) + middle + Part(r, 5) + Part(r, 6), Part(r, 7), 0, 8, 9);
  }

  /** A repair excludes every other operation. */
  lemma OneOperation(r: Record)
    requires Valid(r)
    ensures r.repair.Some? ==> r.rotation.None? && r.enablement.None? && r.link.None?
    ensures (r.rotation.Some? ==> r.startup.Some?) && (r.migration ==> r.retired)
  {
    hide Resources, SchemaShape, ProgressShape;
  }

  lemma ProxyPlanned(r: Record, e: Effect)
    requires r.package && e in PROXY_EFFECTS
    ensures Planned(r, e)
  {
    hide AuxiliaryEffects;
  }

  lemma CalledPlanned(r: Record, e: Effect)
    requires Called(r, e)
    ensures Planned(r, e)
  {
    CalledExactly(r, e);
    hide Called, AuxiliaryEffects;
  }

  /** What a package installation always owns. */
  lemma FixedIsPlanned(r: Record, res: Resource)
    requires r.package && (res.ConfigFile? || res.LockFile? || (res.BaseFile? && 2 <= res.slot <= 12))
    ensures exists e :: e in Removers(res) && Planned(r, e)
  {
    var e :| e in Removers(res) && e in PROXY_EFFECTS;
    ProxyPlanned(r, e);
    hide Planned, Removers;
  }

  /** What the optional parts and the open operation own. */
  lemma OptionalIsPlanned(r: Record, res: Resource)
    requires Footprint.Due(r, res) && (r.rotation.Some? ==> r.startup.Some?) && (r.migration ==> r.retired)
    requires !(res.OwnershipFile? || res.ConfigFile? || res.BaseFile? || res.ProductFile? || res.LockFile?)
    ensures exists e :: e in Removers(res) && Planned(r, e)
  {
    hide Footprint.ServesAt, Footprint.Prepares, Planned, AuxiliaryEffects;
    if res.StartupFile? || res.StartupDirectory? || res.StartupNext? {
      StartupPlanned(r);
      assert ProxyStartup in Removers(res);
    } else {
      var e :| e in Removers(res) && Called(r, e);
      CalledPlanned(r, e);
    }
  }

  lemma StartupPlanned(r: Record)
    requires r.startup.Some?
    ensures Planned(r, ProxyStartup)
  {
    hide AuxiliaryEffects;
  }

  lemma ProductPlanned(r: Record)
    ensures Planned(r, Executable) && Planned(r, InstalledRecord)
  {
    hide ProxySide;
  }

  /** Whatever a valid record owns besides its own files, its removal plans an effect that takes it away. */
  lemma OwnedIsPlanned(r: Record, res: Resource)
    requires Valid(r) && res in r.resources && !RecordFile(res)
    ensures exists e :: e in Removers(res) && Planned(r, e)
  {
    Footprint.OwnsExactly(r, res);
    OneOperation(r);
    hide Valid, Planned, Footprint.ServesAt, Footprint.Prepares, Removers;
    if res.ConfigFile? || res.LockFile? || res.BaseFile? {
      FixedIsPlanned(r, res);
    } else if res.ProductFile? {
      ProductPlanned(r);
      ProductRemovers(res);
    } else {
      OptionalIsPlanned(r, res);
    }
  }

  lemma ProductRemovers(res: Resource)
    requires res.ProductFile?
    ensures Executable in Removers(res) || InstalledRecord in Removers(res)
  {
  }

  /** With every planned effect absent, nothing the record owns is left. */
  lemma AbsentIsGone(r: Record, present: set<Effect>)
    requires Valid(r) && forall e :: Planned(r, e) ==> e !in present
    ensures Gone(r.resources, present)
  {
    hide Valid, Planned, Removers, RecordFile;
    forall res | res in r.resources && !RecordFile(res) ensures exists e :: e in Removers(res) && e !in present {
      OwnedIsPlanned(r, res);
    }
  }

  // ----- Selecting the authority --------------------------------------------------

  datatype Location = AtCurrent | AtFinalizer

  datatype Authority = Authority(current: Option<Content>, staged: Option<Content>, finalizer: Option<Content>)

  datatype Selection = Selection(record: Record, location: Location)

  const NOTHING := Authority(None, None, None)

  function Decode(c: Content): (result: Result<Record>) {
    match c
    case Canonical(r) => Ok(r)
    case Torn => Err
  }

  predicate StageAllowed(r: Record, staged: Option<Content>) {
    match staged
    case None => true
    case Some(Torn) => false
    case Some(Canonical(s)) => s == r || NextRemoval(r) == Ok(s)
  }

  /** Exactly one authority; a stage never adds or changes it. */
  function Selected(a: Authority): (result: Result<Option<Selection>>) {
    match (a.current, a.finalizer)
    case (Some(c), None) =>
      var r :- Decode(c);
      if StageAllowed(r, a.staged) then Ok(Some(Selection(r, AtCurrent))) else Err
    case (None, Some(f)) =>
      if a.staged.Some? then Err
      else
        var r :- Decode(f);
        var k :- RemovalCheckpoint(r);
        if k != Limit(r) then Err else Ok(Some(Selection(r, AtFinalizer)))
    case (None, None) => if a.staged.Some? then Err else Ok(None)
    case (Some(_), Some(_)) => Err
  }

  // ----- Restoring the exact release ----------------------------------------------

  datatype LifecycleFacts = LifecycleFacts(release: Release, valid: bool, executable: bool, installed: bool)

  datatype Restoration = Restoration(release: Release, executable: bool, installed: bool)

  /** Only missing members of the committed release may come back. */
  function ExactRestoration(a: Authority, facts: LifecycleFacts): (result: Result<Option<Restoration>>) {
    var selected :- Selected(a);
    if selected.None? then Err
    else
      var release :- FinishingRelease(selected.value.record);
      if !facts.valid || facts.release != release then Err
      else if facts.executable && facts.installed then Ok(None)
      else Ok(Some(Restoration(release, !facts.executable, !facts.installed)))
  }

  // ----- Properties of the record steps --------------------------------------------

  /** The same resources, apart from the record's own schema, by the same creators. */
  predicate SameOwnership(a: Record, b: Record) {
    && |a.resources| == |b.resources|
    && forall i :: 0 <= i < |a.resources| ==>
         CreatorAt(a, i) == CreatorAt(b, i) && (a.resources[i] == b.resources[i] || i == 0)
  }

  /** Commitment binds the finisher, keeps what is owned and by whom, and starts at zero. */
  lemma CommitBinds(source: Option<Record>, finisher: Release)
    requires source.Some? ==> Valid(source.value)
    ensures CommitRemoval(source, finisher).Ok? <==>
      source.None? || (source.value.direction != Removal && !source.value.migration)
    ensures CommitRemoval(source, finisher).Ok? ==>
      var r := CommitRemoval(source, finisher).value;
      && Valid(r) && r.direction == Removal && r.removal == 0
      && FinishingRelease(r) == Ok(finisher)
      && Limit(r) == (if source.Some? then 11 else 3)
      && (source.Some? ==> SameOwnership(source.value, r))
  {
    if source.Some? && source.value.direction != Removal && !source.value.migration {
      CommitIsValid(source.value, finisher);
    } else if source.None? {
      SoftwareOnlyIsValid(finisher);
    }
  }

  lemma SoftwareOnlyIsValid(finisher: Release)
    ensures CommitRemoval(None, finisher).Ok?
  {
  }

  function Committing(s: Record, finisher: Release): (next: Record) {
    var upgraded :=
      if s.schema == 1 then
        s.(schema := 2,
           resources := if |s.resources| == 0 then [] else s.resources[0 := OwnershipFile(2)],
           creators := Some(seq(|s.resources|, _ => s.release)))
      else s;
    upgraded.(phase := RemovalCommitted, direction := Removal, cleanup := 0, removal := 0, finisher := Some(finisher))
  }

  lemma CommitIsValid(s: Record, finisher: Release)
    requires Valid(s) && s.direction != Removal && !s.migration
    ensures CommitRemoval(Some(s), finisher) == Ok(Committing(s, finisher))
  {
    var r := Committing(s, finisher);
    CommitFootprint(s, finisher);
    assert SchemaShape(r);
    assert ProgressShape(r);
    CommitShape(s, finisher);
  }

  lemma CommitFootprint(s: Record, finisher: Release)
    requires Valid(s) && s.direction != Removal && !s.migration
    ensures Committing(s, finisher).resources == Resources(Committing(s, finisher))
  {
    var r := Committing(s, finisher);
    FootprintDepends(s, r);
    FootprintDepends(s, s);
    hide Resources, OperationShape, ProgressShape;
    assert s.resources == Resources(s);
  }

  lemma CommitShape(s: Record, finisher: Release)
    requires Valid(s) && s.direction != Removal && !s.migration
    ensures OperationShape(Committing(s, finisher))
  {
    hide Resources;
  }

  lemma NextIsValid(r: Record)
    requires Valid(r) && r.direction == Removal && r.removal < Limit(r)
    ensures Valid(r.(removal := r.removal + 1))
  {
    var n := r.(removal := r.removal + 1);
    RecordFirst(r);
    RecordFirst(n);
    SameOwned(r, n);
    hide Resources, Owned;
    assert OperationShape(n);
  }

  /** Below the limit a checkpoint always advances, by one, and changes nothing else. */
  lemma NextAdvances(r: Record)
    requires Valid(r) && r.direction == Removal
    ensures NextRemoval(r).Ok? <==> r.removal < Limit(r)
    ensures NextRemoval(r).Ok? ==>
      var n := NextRemoval(r).value;
      && n == r.(removal := r.removal + 1) && Valid(n)
      && FinishingRelease(n) == FinishingRelease(r) && Limit(n) == Limit(r)
      && AuxiliaryEffects(n) == AuxiliaryEffects(r)
  {
    hide Valid;
    NeverAboveLimit(r);
    if r.removal < Limit(r) {
      NextIsValid(r);
    }
  }

  lemma NeverAboveLimit(r: Record)
    requires Valid(r) && r.direction == Removal
    ensures r.removal <= Limit(r)
  {
    hide Resources, OperationShape;
  }

  /** A commitment that was staged but not renamed leaves nothing that can be selected. */
  lemma StagedCommitSelectsNothing(source: Option<Record>, finisher: Release)
    requires CommitRemoval(source, finisher).Ok?
    requires source.Some? ==> source.value.direction != Removal
    ensures Selected(Authority(if source.Some? then Some(Canonical(source.value)) else None,
                               Some(Canonical(CommitRemoval(source, finisher).value)), None)).Err?
  {
    hide Valid;
  }
}
