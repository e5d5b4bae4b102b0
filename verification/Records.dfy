/**
 The Ownership Record: the small durable value from which every recovery
 direction is read. A record is plain data; `Valid` is the predicate a decoder
 applies, and each transition below builds a candidate and passes it through
 `Validated`, so no step can leave the valid records.

 Resource strings are modelled by one constructor per textual form; two strings
 of the source are equal exactly when their constructors and fields are.
 */
module Records {
  import opened Wrappers

  // ----- Values ----------------------------------------------------------------

  datatype Release = Release(tag: string, commit: string, index: string)

  datatype Address = NoAddress | V4(a: nat, b: nat, c: nat, d: nat)

  datatype Phase =
    | OwnershipRecorded | AptKeyInstalled | AptSourceInstalled | ServiceMasked
    | PackageInstalled | PackageHeld | StateDirectoryCreated
    | ConfigurationInstalled | ConfigurationValidated | ServiceUnmasked
    | ActivationCommitted | ServiceEnabled | ServiceStarted | Running
    | RemovalCommitted

  datatype RecoveryDirection = Cleanup | FinishSetup | Idle | Removal

  datatype ChangeDirection = Backward | Forward

  datatype Serving = Serving(link: string, credential: string)

  datatype SubscriptionResources = SubscriptionResources(address: Address, firewall: string)

  datatype Enablement = Enablement(
    checkpoint: nat, link: string, credential: string, recorder: string,
    serving: Option<Serving>, resources: SubscriptionResources)

  datatype LinkStep = TargetAuthorized | StopAuthorized | LinkCommitted

  datatype LinkRotation = LinkRotation(
    operation: string, direction: ChangeDirection, step: LinkStep,
    completed: nat, source: Serving, target: Serving)

  datatype RepairStep = RepairPrepared | RepairCommitted | RepairAccepted

  datatype Repair = Repair(
    operation: string, direction: ChangeDirection, step: RepairStep,
    completed: bool, source: Serving, target: Option<Serving>)

  datatype Startup = Startup(dropIn: string, directoryCreated: bool)

  datatype Tunnel = Tunnel(id: string, token: string, binary: string)

  datatype EffectName =
    | PrepareTargetName | PublishStartupName | ReloadName | VerifyRouteName
    | GateName | StopSourceName | ProveQuiescenceName | RevokeName
    | PublishTargetName | StartTargetName | VerifyTargetName | CleanStagingName

  const EFFECTS: seq<EffectName> := [
    PrepareTargetName, PublishStartupName, ReloadName, VerifyRouteName,
    GateName, StopSourceName, ProveQuiescenceName, RevokeName,
    PublishTargetName, StartTargetName, VerifyTargetName, CleanStagingName]

  datatype Checkpoint =
    | Authorized | TargetPrepared | IntegrationPublished | Reloaded
    | RouteVerified | Gated | Stopped | Quiescent
    | Revoked | TargetPublished | TargetStarted
  {
    function Index(): (i: nat)
      ensures i <= 10
    {
      match this
      case Authorized => 0
      case TargetPrepared => 1
      case IntegrationPublished => 2
      case Reloaded => 3
      case RouteVerified => 4
      case Gated => 5
      case Stopped => 6
      case Quiescent => 7
      case Revoked => 8
      case TargetPublished => 9
      case TargetStarted => 10
    }

    function Direction(): (way: ChangeDirection) {
      if Index() < 8 then Backward else Forward
    }
  }

  function FromIndex(i: nat): (c: Result<Checkpoint>)
    ensures c.Ok? <==> i <= 10
    ensures c.Ok? ==> c.value.Index() == i
  {
    match i
    case 0 => Ok(Authorized)
    case 1 => Ok(TargetPrepared)
    case 2 => Ok(IntegrationPublished)
    case 3 => Ok(Reloaded)
    case 4 => Ok(RouteVerified)
    case 5 => Ok(Gated)
    case 6 => Ok(Stopped)
    case 7 => Ok(Quiescent)
    case 8 => Ok(Revoked)
    case 9 => Ok(TargetPublished)
    case 10 => Ok(TargetStarted)
    case _ => Err
  }

  datatype ClientSubscription = ClientSubscription(
    source: Serving, target: Serving, sourceArtifact: string, targetArtifact: string)

  datatype Rotation = Rotation(
    operation: string, direction: ChangeDirection, completed: seq<EffectName>,
    source: string, target: string, checkpoint: Checkpoint,
    subscription: Option<ClientSubscription>)

  datatype Resource =
    | OwnershipFile(schema: nat)
    | ConfigFile(sha: string)
    | BaseFile(slot: nat)
    | ProductFile(slot: nat)
    | LockFile(slot: nat)
    | TunnelFile(slot: nat)
    | ServingFile(slot: nat)
    | FirewallUnit(sha: string)
    | FirewallRule(address: Address)
    | RetiredFiles
    | MigrationFiles
    | EnablementFile(slot: nat)
    | LinkStagingFile(slot: nat)
    | StartupFile(sha: string)
    | StartupDirectory
    | TargetFile(sha: string)
    | TargetFileNext
    | ConfigNext(sha: string)
    | StartupNext
    | StagedArtifact(sha: string)
    | IdentityStagingFile(slot: nat)

  datatype Record = Record(
    schema: nat, phase: Phase, direction: RecoveryDirection, release: Release,
    package: bool, address: Address, config: string,
    resources: seq<Resource>, creators: Option<seq<Release>>,
    cleanup: nat, removal: nat, finisher: Option<Release>,
    serving: Option<Serving>, enablement: Option<Enablement>,
    link: Option<LinkRotation>, repair: Option<Repair>, compromised: bool,
    subscription: Option<SubscriptionResources>, startup: Option<Startup>,
    lockUnit: bool, tunnel: Option<Tunnel>, rotation: Option<Rotation>,
    retired: bool, migration: bool)

  /** A stored file is a complete canonical record or an interrupted write. */
  datatype Content = Canonical(record: Record) | Torn

  // ----- Syntactic checks ------------------------------------------------------

  predicate HexDigit(c: char) { '0' <= c <= '9' || 'a' <= c <= 'f' }

  predicate LowerHex(s: string, n: nat) {
    |s| == n && forall i :: 0 <= i < |s| ==> HexDigit(s[i])
  }

  predicate NonzeroHex(s: string, n: nat) {
    LowerHex(s, n) && exists i :: 0 <= i < |s| && s[i] != '0'
  }

  /** Operation names also accept upper-case digits. */
  predicate OperationName(s: string) {
    && |s| == 32
    && (forall i :: 0 <= i < |s| ==> HexDigit(s[i]) || 'A' <= s[i] <= 'F')
    && (exists i :: 0 <= i < |s| && s[i] != '0')
  }

  predicate PublicAddress(v: Address) {
    && v.V4?
    && v.a < 256 && v.b < 256 && v.c < 256 && v.d < 256
    && !(v.a == 0 || v.a == 10 || v.a == 127 || v.a >= 224)
    && !(v.a == 100 && 64 <= v.b <= 127)
    && !(v.a == 169 && v.b == 254)
    && !(v.a == 172 && 16 <= v.b <= 31)
    && !(v.a == 192 && ((v.b == 0 && (v.c == 0 || v.c == 2)) || (v.b == 88 && v.c == 99) || v.b == 168))
    && !(v.a == 198 && (18 <= v.b <= 19 || (v.b == 51 && v.c == 100)))
    && !(v.a == 203 && v.b == 0 && v.c == 113)
  }

  // ----- The recorded resource footprint ----------------------------------------

  const BASE_FILES: seq<Resource> :=
    [BaseFile(0), BaseFile(1), BaseFile(2), BaseFile(3), BaseFile(4),
     BaseFile(5), BaseFile(6), BaseFile(7), BaseFile(8)]

  const SERVING_FILES: seq<Resource> :=
    [ServingFile(0), ServingFile(1), ServingFile(2), ServingFile(3), ServingFile(4)]

  function FirewallResources(s: SubscriptionResources): (resources: seq<Resource>) {
    [FirewallUnit(s.firewall), FirewallRule(s.address)]
  }

  function EnablementResources(e: Enablement): (resources: seq<Resource>) {
    (if e.serving.Some? then SERVING_FILES
     else [EnablementFile(0), EnablementFile(1), ServingFile(0), EnablementFile(2)])
    + FirewallResources(e.resources)
    + (if 8 <= e.checkpoint <= 14 then [EnablementFile(3)] else [])
    + (if 8 <= e.checkpoint <= 15 then [EnablementFile(4)] else [])
    + [EnablementFile(5), EnablementFile(6), EnablementFile(7),
       EnablementFile(8), EnablementFile(9), EnablementFile(10)]
  }

  /** Optional owned resources, in recorded order. */
  function Auxiliary(r: Record): (resources: seq<Resource>) {
    (if r.tunnel.Some? then [TunnelFile(0), TunnelFile(1), TunnelFile(2)] else [])
    + (if r.serving.Some? then SERVING_FILES else [])
    + (if r.subscription.Some? then FirewallResources(r.subscription.value) else [])
    + (if r.retired then [RetiredFiles] else [])
    + (if r.retired && r.migration then [MigrationFiles] else [])
    + (if r.enablement.Some? then EnablementResources(r.enablement.value) else [])
    + (if r.link.Some? then [LinkStagingFile(0), LinkStagingFile(1)] else [])
  }

  /** What a package installation owns after its configuration file. */
  function Trailing(r: Record): (resources: seq<Resource>) {
    [BaseFile(9), BaseFile(10), BaseFile(11), BaseFile(12)]
    + (if r.lockUnit then [LockFile(0), LockFile(1), LockFile(2)] else [])
    + Auxiliary(r)
  }

  /** Everything a record owns besides startup integration and rotation staging. */
  function PriorResources(r: Record): (resources: seq<Resource>) {
    if r.package
    then [OwnershipFile(r.schema)] + BASE_FILES + [ConfigFile(r.config)] + Trailing(r)
    else [OwnershipFile(r.schema), BaseFile(0), ProductFile(0), ProductFile(1)] + Auxiliary(r)
  }

  function StartupResources(s: Startup): (resources: seq<Resource>) {
    [StartupFile(s.dropIn)] + (if s.directoryCreated then [StartupDirectory] else [])
  }

  /** Staging that belongs to one client identity rotation. */
  function OperationResources(target: string, artifact: Option<string>): (resources: seq<Resource>) {
    [TargetFile(target), TargetFileNext, ConfigNext(target), StartupNext]
    + (if artifact.Some? then
         [StagedArtifact(artifact.value), IdentityStagingFile(0), IdentityStagingFile(1),
          IdentityStagingFile(2), IdentityStagingFile(3), IdentityStagingFile(4)]
       else [])
  }

  function TargetArtifact(r: Rotation): (found: Option<string>) {
    if r.subscription.Some? then Some(r.subscription.value.targetArtifact) else None
  }

  function StartupFootprint(r: Record): (resources: seq<Resource>) {
    if r.startup.Some? then StartupResources(r.startup.value) else []
  }

  function RotationFootprint(r: Record): (resources: seq<Resource>) {
    if r.rotation.Some?
    then OperationResources(r.rotation.value.target, TargetArtifact(r.rotation.value))
    else []
  }

  function Resources(r: Record): (resources: seq<Resource>) {
    PriorResources(r) + StartupFootprint(r) + RotationFootprint(r)
  }

  /** The same things installed and pending. */
  predicate SameFootprint(a: Record, b: Record) {
    && a.package == b.package && a.config == b.config && a.lockUnit == b.lockUnit
    && a.tunnel == b.tunnel && a.serving == b.serving && a.subscription == b.subscription
    && a.retired == b.retired && a.migration == b.migration && a.enablement == b.enablement
    && a.link == b.link && a.startup == b.startup && a.rotation == b.rotation
  }

  lemma SameAuxiliary(a: Record, b: Record)
    requires SameFootprint(a, b)
    ensures Auxiliary(a) == Auxiliary(b) && Trailing(a) == Trailing(b)
    ensures StartupFootprint(a) == StartupFootprint(b) && RotationFootprint(a) == RotationFootprint(b)
  {
  }

  /** Everything owned besides the record itself. */
  function Owned(r: Record): (resources: seq<Resource>) {
    (if r.package then BASE_FILES + [ConfigFile(r.config)] + Trailing(r)
     else [BaseFile(0), ProductFile(0), ProductFile(1)] + Auxiliary(r))
    + StartupFootprint(r) + RotationFootprint(r)
  }

  lemma RecordFirst(r: Record)
    ensures Resources(r) == [OwnershipFile(r.schema)] + Owned(r)
  {
    hide Auxiliary, Trailing, StartupFootprint, RotationFootprint;
  }

  lemma SameOwned(a: Record, b: Record)
    requires SameFootprint(a, b)
    ensures Owned(a) == Owned(b)
  {
    SameAuxiliary(a, b);
    hide Auxiliary, Trailing, StartupFootprint, RotationFootprint;
  }

  /** The footprint depends on what is installed and pending, and on the schema at one place. */
  lemma FootprintDepends(a: Record, b: Record)
    requires SameFootprint(a, b)
    ensures |Resources(a)| > 0
    ensures Resources(b) == Resources(a)[0 := OwnershipFile(b.schema)]
  {
    hide Owned, SameFootprint, Resources;
    RecordFirst(a);
    RecordFirst(b);
    SameOwned(a, b);
  }

  // ----- Validity --------------------------------------------------------------

  predicate ValidServing(s: Serving) { NonzeroHex(s.link, 32) && NonzeroHex(s.credential, 64) }

  predicate ValidSubscription(s: SubscriptionResources) {
    s.address.V4? && LowerHex(s.firewall, 64)
  }

  predicate ValidEnablement(e: Enablement) {
    && e.checkpoint <= 23
    && NonzeroHex(e.link, 32) && NonzeroHex(e.credential, 64) && NonzeroHex(e.recorder, 32)
    && ValidSubscription(e.resources)
    && (match e.serving
        case None => e.checkpoint < 8
        case Some(s) => ValidServing(s) && s.link == e.link && s.credential == e.credential)
  }

  predicate ValidLink(v: LinkRotation) {
    && NonzeroHex(v.operation, 32)
    && v.direction == (if v.step == LinkCommitted then Forward else Backward)
    && v.completed == (match v.step case TargetAuthorized => 0 case StopAuthorized => 1 case LinkCommitted => 2)
    && ValidServing(v.source) && ValidServing(v.target)
    && v.source.link != v.target.link && v.source.credential != v.target.credential
  }

  predicate ValidRepair(v: Repair) {
    && NonzeroHex(v.operation, 32) && ValidServing(v.source)
    && v.direction == (if v.step == RepairPrepared then Backward else Forward)
    && v.completed == (v.step == RepairAccepted)
    && !(v.step == RepairPrepared && v.target.Some?)
    && !(v.step == RepairAccepted && v.target.None?)
    && (v.target.Some? ==> v.target.value == v.source)
  }

  predicate ValidClientSubscription(s: ClientSubscription) {
    && ValidServing(s.source) && s.target == s.source
    && NonzeroHex(s.sourceArtifact, 64) && NonzeroHex(s.targetArtifact, 64)
    && s.sourceArtifact != s.targetArtifact
  }

  predicate ValidRotation(v: Rotation, startup: Option<Startup>, config: string) {
    && OperationName(v.operation)
    && LowerHex(v.source, 64) && LowerHex(v.target, 64) && v.source != v.target
    && v.completed == EFFECTS[..v.checkpoint.Index()]
    && v.direction == v.checkpoint.Direction()
    && startup.Some?
    && config == (if v.checkpoint.Index() >= 9 then v.target else v.source)
  }

  predicate SchemaShape(r: Record) {
    if r.schema == 1 then
      && r.creators.None? && r.finisher.None? && r.serving.None? && r.enablement.None?
      && r.link.None? && r.repair.None? && r.subscription.None? && r.startup.None?
      && r.rotation.None? && !r.retired && !r.migration
    else
      && r.schema == 2
      && r.creators.Some? && |r.creators.value| == |r.resources|
      && (if r.direction == Removal then r.finisher.Some?
          else r.phase == Running && r.direction == Idle && r.finisher.None?)
  }

  /** A record whose operations are meaningful: running, or kept under a removal. */
  predicate Context(r: Record) {
    (r.phase == Running && r.direction == Idle) || (r.phase == RemovalCommitted && r.direction == Removal)
  }

  predicate OperationShape(r: Record) {
    && (r.retired ==> r.serving.Some?)
    && (r.migration ==> r.retired && r.phase == Running && r.direction == Idle && r.enablement.None?
                        && r.link.None? && r.repair.None? && r.rotation.None?)
    && (r.serving.Some? ==> ValidServing(r.serving.value) && r.package && r.subscription.Some?
                            && (r.phase == Running || r.phase == RemovalCommitted))
    && (r.enablement.Some? ==> r.schema == 2 && r.serving.None? && Context(r)
                               && ValidEnablement(r.enablement.value))
    && (r.link.Some? ==> r.schema == 2 && r.enablement.None? && Context(r) && ValidLink(r.link.value)
                         && r.serving == Some(if r.link.value.step == LinkCommitted
                                              then r.link.value.target else r.link.value.source))
    && (r.repair.Some? ==> r.schema == 2 && r.enablement.None? && r.link.None? && Context(r)
                           && ValidRepair(r.repair.value) && r.serving == Some(r.repair.value.source))
    && (r.compromised ==> r.schema == 2 && r.serving.Some?)
    && (r.subscription.Some? ==> r.schema == 2 && ValidSubscription(r.subscription.value)
                                 && r.subscription.value.address == r.address && r.serving.Some?)
    && (r.startup.Some? ==> r.schema == 2 && NonzeroHex(r.startup.value.dropIn, 64)
                            && (r.phase == Running || r.phase == RemovalCommitted))
    && (r.lockUnit ==> r.package)
    && (r.tunnel.Some? ==> r.package && r.lockUnit)
    && (r.rotation.Some? ==>
          && r.schema == 2 && r.enablement.None? && r.link.None? && r.repair.None? && Context(r)
          && ValidRotation(r.rotation.value, r.startup, r.config)
          && (r.rotation.value.subscription.None? <==> r.serving.None?)
          && (r.rotation.value.subscription.Some? ==>
                && ValidClientSubscription(r.rotation.value.subscription.value)
                && r.serving == Some(r.rotation.value.subscription.value.source)))
  }

  function Limit(r: Record): (n: nat) { if r.package then 11 else 3 }

  function PhaseDirection(p: Phase): (way: RecoveryDirection) {
    match p
    case Running => Idle
    case RemovalCommitted => Removal
    case ActivationCommitted => FinishSetup
    case ServiceEnabled => FinishSetup
    case ServiceStarted => FinishSetup
    case _ => Cleanup
  }

  predicate ProgressShape(r: Record) {
    if r.direction == Removal then
      && r.phase == RemovalCommitted && r.cleanup == 0 && r.removal <= Limit(r)
      && (!r.package ==> r.address.NoAddress? && r.config == "")
    else
      && r.phase != RemovalCommitted && r.direction == PhaseDirection(r.phase)
      && r.cleanup <= 8 && r.removal == 0 && (r.direction != Cleanup ==> r.cleanup == 0)
      && r.package
  }

  predicate Valid(r: Record) {
    && SchemaShape(r) && OperationShape(r) && ProgressShape(r)
    && (r.package ==> LowerHex(r.config, 64) && PublicAddress(r.address))
    && r.resources == Resources(r)
  }

  function Validated(r: Record): (v: Result<Record>)
    ensures v.Ok? ==> v.value == r && Valid(r)
  {
    if Valid(r) then Ok(r) else Err
  }

  lemma ValidatedIs(r: Record)
    requires Valid(r)
    ensures Validated(r) == Ok(r)
  {
    hide Valid;
  }

  // ----- Setup and cleanup checkpoints -----------------------------------------

  function NextPhase(p: Phase): (result: Result<Phase>) {
    match p
    case OwnershipRecorded => Ok(AptKeyInstalled)
    case AptKeyInstalled => Ok(AptSourceInstalled)
    case AptSourceInstalled => Ok(ServiceMasked)
    case ServiceMasked => Ok(PackageInstalled)
    case PackageInstalled => Ok(PackageHeld)
    case PackageHeld => Ok(StateDirectoryCreated)
    case StateDirectoryCreated => Ok(ConfigurationInstalled)
    case ConfigurationInstalled => Ok(ConfigurationValidated)
    case ConfigurationValidated => Ok(ServiceUnmasked)
    case ServiceUnmasked => Ok(ActivationCommitted)
    case ActivationCommitted => Ok(ServiceEnabled)
    case ServiceEnabled => Ok(ServiceStarted)
    case ServiceStarted => Ok(Running)
    case Running => Err
    case RemovalCommitted => Err
  }

  function NextSetup(r: Record): (result: Result<Record>) {
    if r.cleanup != 0 then Err
    else
      var p :- NextPhase(r.phase);
      Validated(r.(phase := p, direction := PhaseDirection(p)))
  }

  function NextCleanup(r: Record): (result: Result<Record>) {
    if r.direction != Cleanup || r.cleanup >= 8 then Err
    else Validated(r.(cleanup := r.cleanup + 1))
  }

  // ----- Subscription transitions ----------------------------------------------

  datatype Pending =
    | EnablementPending(checkpoint: nat)
    | LinkPending(way: ChangeDirection)
    | RepairPending(way: ChangeDirection)
    | IdentityPending(way: ChangeDirection)
    | MigrationPending
    | RemovalPending(step: nat)

  function PendingChange(r: Record): (found: Option<Pending>) {
    if r.direction == Removal then Some(RemovalPending(r.removal))
    else if r.migration then Some(MigrationPending)
    else if r.enablement.Some? then Some(EnablementPending(r.enablement.value.checkpoint))
    else if r.link.Some? then Some(LinkPending(r.link.value.direction))
    else if r.repair.Some? then Some(RepairPending(r.repair.value.direction))
    else if r.rotation.Some? then Some(IdentityPending(r.rotation.value.direction))
    else None
  }

  predicate CurrentRunning(r: Record) {
    r.phase == Running && r.direction == Idle && !r.migration && r.finisher.None? && r.rotation.None?
  }

  predicate IdleHttp(r: Record) {
    CurrentRunning(r) && r.schema == 2 && PendingChange(r).None? && r.serving.Some?
  }

  /** The name under which a resource keeps its creator while its text changes. */
  function CreatorIdentity(res: Resource): (resource: Resource) {
    match res
    case OwnershipFile(_) => OwnershipFile(0)
    case ConfigFile(_) => ConfigFile("")
    case _ => res
  }

  function CreatorAt(r: Record, i: nat): (release: Release) {
    if r.creators.Some? && i < |r.creators.value| then r.creators.value[i] else r.release
  }

  function CreatorOf(r: Record, res: Resource, n: nat): (release: Release)
    requires n <= |r.resources|
  {
    if n == 0 then r.release
    else if CreatorIdentity(r.resources[n - 1]) == CreatorIdentity(res) then CreatorAt(r, n - 1)
    else CreatorOf(r, res, n - 1)
  }

  function WithResources(prior: Record, next: Record): (result: Result<Record>) {
    var resources := Resources(next);
    var creators := seq(|resources|, (i: int) requires 0 <= i < |resources| =>
      CreatorOf(prior, resources[i], |prior.resources|));
    Validated(next.(resources := resources, creators := Some(creators)))
  }

  function NextEnablementCheckpoint(c: nat): (result: Result<nat>) {
    if 0 <= c < 3 then Ok(c + 1)
    else if c == 3 then Ok(8)
    else if 8 <= c < 15 then Ok(c + 1)
    else if c == 15 then Ok(22)
    else if c == 22 then Ok(23)
    else Err
  }

  function BeginEnablement(r: Record, e: Enablement): (result: Result<Record>) {
    if !CurrentRunning(r) || PendingChange(r).Some? || r.serving.Some? || r.subscription.Some? || r.retired
       || e.checkpoint != 0 || e.serving.Some? || e.resources.address != r.address
    then Err
    else WithResources(r, r.(schema := 2, enablement := Some(e)))
  }

  function AdvanceEnablement(r: Record): (result: Result<Record>) {
    if !CurrentRunning(r) || r.enablement.None? then Err
    else
      var e := r.enablement.value;
      var c :- NextEnablementCheckpoint(e.checkpoint);
      var serving := if c >= 8 then Some(Serving(e.link, e.credential)) else e.serving;
      WithResources(r, r.(enablement := Some(e.(checkpoint := c, serving := serving))))
  }

  function CommitEnablement(r: Record): (result: Result<Record>) {
    if !CurrentRunning(r) || r.enablement.None? || r.enablement.value.checkpoint != 23
       || r.enablement.value.serving.None?
    then Err
    else WithResources(r, r.(serving := r.enablement.value.serving,
                             subscription := Some(r.enablement.value.resources),
                             enablement := None))
  }

  function CleanupEnablement(r: Record): (result: Result<Record>) {
    if !CurrentRunning(r) || r.enablement.None? then Err
    else WithResources(r, r.(enablement := None))
  }

  function BeginLink(r: Record, v: LinkRotation): (result: Result<Record>) {
    if !IdleHttp(r) || v.step != TargetAuthorized || v.completed != 0 || r.serving != Some(v.source) then Err
    else WithResources(r, r.(link := Some(v)))
  }

  function AdvanceLink(r: Record): (result: Result<Record>) {
    if !CurrentRunning(r) || r.link.None? then Err
    else
      var v := r.link.value;
      match v.step
      case TargetAuthorized =>
        WithResources(r, r.(link := Some(v.(step := StopAuthorized, completed := 1))))
      case StopAuthorized =>
        WithResources(r, r.(link := Some(v.(step := LinkCommitted, direction := Forward, completed := 2)),
                            serving := Some(v.target)))
      case LinkCommitted => Err
  }

  function CleanupLink(r: Record): (result: Result<Record>) {
    if !CurrentRunning(r) || r.link.None? || r.link.value.step == LinkCommitted then Err
    else WithResources(r, r.(link := None))
  }

  function CompleteLink(r: Record): (result: Result<Record>) {
    if !CurrentRunning(r) || r.link.None? || r.link.value.step != LinkCommitted then Err
    else WithResources(r, r.(link := None, compromised := false))
  }

  function BeginRepair(r: Record, v: Repair): (result: Result<Record>) {
    if !IdleHttp(r) || v.step != RepairPrepared || v.completed || r.serving != Some(v.source) then Err
    else WithResources(r, r.(repair := Some(v)))
  }

  function AdvanceRepair(r: Record): (result: Result<Record>) {
    if !CurrentRunning(r) || r.repair.None? then Err
    else
      var v := r.repair.value;
      match v.step
      case RepairPrepared =>
        WithResources(r, r.(repair := Some(v.(step := RepairCommitted, direction := Forward))))
      case RepairCommitted =>
        if v.target.None? then WithResources(r, r.(repair := Some(v.(target := Some(v.source)))))
        else WithResources(r, r.(repair := Some(v.(step := RepairAccepted, completed := true)),
                                 serving := v.target))
      case RepairAccepted => Err
  }

  function CleanupRepair(r: Record): (result: Result<Record>) {
    if !CurrentRunning(r) || r.repair.None? || r.repair.value.step != RepairPrepared then Err
    else WithResources(r, r.(repair := None))
  }

  function CompleteRepair(r: Record): (result: Result<Record>) {
    if !CurrentRunning(r) || r.repair.None? || r.repair.value.step != RepairAccepted then Err
    else WithResources(r, r.(repair := None))
  }

  function MarkCompromised(r: Record): (result: Result<Record>) {
    if !CurrentRunning(r) || r.serving.None? then Err
    else WithResources(r, r.(compromised := true))
  }

  predicate HttpSuccessor(r: Record, next: Record) {
    || (next.enablement.Some? && r.enablement.None? && BeginEnablement(r, next.enablement.value) == Ok(next))
    || (r.enablement.Some? && (AdvanceEnablement(r) == Ok(next) || CommitEnablement(r) == Ok(next)
                               || CleanupEnablement(r) == Ok(next)))
    || (next.link.Some? && r.link.None? && BeginLink(r, next.link.value) == Ok(next))
    || (r.link.Some? && (AdvanceLink(r) == Ok(next) || CleanupLink(r) == Ok(next) || CompleteLink(r) == Ok(next)))
    || (next.repair.Some? && r.repair.None? && BeginRepair(r, next.repair.value) == Ok(next))
    || (r.repair.Some? && (AdvanceRepair(r) == Ok(next) || CleanupRepair(r) == Ok(next)
                           || CompleteRepair(r) == Ok(next)))
    || (!r.compromised && MarkCompromised(r) == Ok(next))
  }

  predicate PermitsSuccessor(r: Record, next: Record) {
    || r == next
    || NextSetup(r) == Ok(next)
    || NextCleanup(r) == Ok(next)
    || HttpSuccessor(r, next)
  }

  // ----- Removal transitions ---------------------------------------------------

  function CommitRemoval(source: Option<Record>, finisher: Release): (result: Result<Record>) {
    match source
    case Some(s) =>
      if s.direction == Removal || s.migration then Err
      else
        var upgraded :=
          if s.schema == 1 then
            s.(schema := 2,
               resources := if |s.resources| == 0 then [] else s.resources[0 := OwnershipFile(2)],
               creators := Some(seq(|s.resources|, _ => s.release)))
          else s;
        Validated(upgraded.(phase := RemovalCommitted, direction := Removal, cleanup := 0,
                            removal := 0, finisher := Some(finisher)))
    case None =>
      Validated(Record(2, RemovalCommitted, Removal, finisher, false, NoAddress, "",
                       [OwnershipFile(2), BaseFile(0), ProductFile(0), ProductFile(1)],
                       Some([finisher, finisher, finisher, finisher]), 0, 0, Some(finisher),
                       None, None, None, None, false, None, None, false, None, None, false, false))
  }

  function RemovalCheckpoint(r: Record): (result: Result<nat>) {
    if r.direction == Removal then Ok(r.removal) else Err
  }

  function NextRemoval(r: Record): (result: Result<Record>) {
    var current :- RemovalCheckpoint(r);
    if current >= Limit(r) then Err else Validated(r.(removal := current + 1))
  }

  function FinishingRelease(r: Record): (result: Result<Release>) {
    if r.direction != Removal then Err
    else if r.schema == 1 then Ok(r.release)
    else if r.finisher.Some? then Ok(r.finisher.value)
    else Err
  }

  predicate PermitsRemoval(source: Option<Record>, next: Record) {
    && next.direction == Removal
    && FinishingRelease(next).Ok?
    && (if source.Some? && source.value.direction == Removal
        then NextRemoval(source.value) == Ok(next)
        else CommitRemoval(source, FinishingRelease(next).value) == Ok(next))
  }
}
