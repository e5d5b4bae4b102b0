/**
 What a record owns, resource by resource: the recorded list holds exactly what the
 installed parts and the open operation call for, and nothing the program puts on a
 machine is missing from it.
 */
module Footprint {
  import opened Wrappers
  import opened Records

  /** Whether a record owns a resource, from its fields alone. */
  predicate Due(r: Record, res: Resource) {
    match res
    case OwnershipFile(schema) => schema == r.schema
    case ConfigFile(sha) => r.package && sha == r.config
    case BaseFile(slot) => slot == 0 || (r.package && slot <= 12)
    case ProductFile(slot) => !r.package && slot <= 1
    case LockFile(slot) => r.package && r.lockUnit && slot <= 2
    case TunnelFile(slot) => r.tunnel.Some? && slot <= 2
    case ServingFile(slot) =>
      slot <= 4 && (r.serving.Some? || (r.enablement.Some? && ServesAt(r.enablement.value, slot)))
    case FirewallUnit(sha) =>
      || (r.subscription.Some? && sha == r.subscription.value.firewall)
      || (r.enablement.Some? && sha == r.enablement.value.resources.firewall)
    case FirewallRule(address) =>
      || (r.subscription.Some? && address == r.subscription.value.address)
      || (r.enablement.Some? && address == r.enablement.value.resources.address)
    case RetiredFiles => r.retired
    case MigrationFiles => r.retired && r.migration
    case EnablementFile(slot) => r.enablement.Some? && Prepares(r.enablement.value, slot)
    case LinkStagingFile(slot) => r.link.Some? && slot <= 1
    case StartupFile(sha) => r.startup.Some? && sha == r.startup.value.dropIn
    case StartupDirectory => r.startup.Some? && r.startup.value.directoryCreated
    case StartupNext => r.rotation.Some?
    case TargetFile(sha) => r.rotation.Some? && sha == r.rotation.value.target
    case TargetFileNext => r.rotation.Some?
    case ConfigNext(sha) => r.rotation.Some? && sha == r.rotation.value.target
    case StagedArtifact(sha) => r.rotation.Some? && TargetArtifact(r.rotation.value) == Some(sha)
    case IdentityStagingFile(slot) => r.rotation.Some? && r.rotation.value.subscription.Some? && slot <= 4
  }

  /** Until its serving part is recorded, an enablement owns only the unit of it. */
  predicate ServesAt(e: Enablement, slot: nat) { e.serving.Some? || slot == 0 }

  /** Provisional files at first, staged files around the commitment, publication files always. */
  predicate Prepares(e: Enablement, slot: nat) {
    if slot <= 2 then e.serving.None?
    else if slot == 3 then 8 <= e.checkpoint <= 14
    else if slot == 4 then 8 <= e.checkpoint <= 15
    else slot <= 10
  }

  lemma In<T>(a: seq<T>, b: seq<T>, x: T)
    ensures x in a + b <==> x in a || x in b
  {
  }

  lemma InFixed(res: Resource)
    ensures res in BASE_FILES <==> res.BaseFile? && res.slot <= 8
    ensures res in [BaseFile(9), BaseFile(10), BaseFile(11), BaseFile(12)] <==> res.BaseFile? && 9 <= res.slot <= 12
    ensures res in [LockFile(0), LockFile(1), LockFile(2)] <==> res.LockFile? && res.slot <= 2
    ensures res in [TunnelFile(0), TunnelFile(1), TunnelFile(2)] <==> res.TunnelFile? && res.slot <= 2
    ensures res in SERVING_FILES <==> res.ServingFile? && res.slot <= 4
    ensures res in [LinkStagingFile(0), LinkStagingFile(1)] <==> res.LinkStagingFile? && res.slot <= 1
  {
  }

  lemma InFirewall(s: SubscriptionResources, res: Resource)
    ensures res in FirewallResources(s) <==> res == FirewallUnit(s.firewall) || res == FirewallRule(s.address)
  {
  }

  lemma InEnablement(e: Enablement, res: Resource)
    ensures res in EnablementResources(e) <==>
      || (res.ServingFile? && res.slot <= 4 && ServesAt(e, res.slot))
      || (res.EnablementFile? && Prepares(e, res.slot))
      || res == FirewallUnit(e.resources.firewall) || res == FirewallRule(e.resources.address)
  {
    var a := if e.serving.Some? then SERVING_FILES
             else [EnablementFile(0), EnablementFile(1), ServingFile(0), EnablementFile(2)];
    var b := FirewallResources(e.resources);
    var c := if 8 <= e.checkpoint <= 14 then [EnablementFile(3)] else [];
    var d := if 8 <= e.checkpoint <= 15 then [EnablementFile(4)] else [];
    var f := [EnablementFile(5), EnablementFile(6), EnablementFile(7),
              EnablementFile(8), EnablementFile(9), EnablementFile(10)];
    InFixed(res);
    InFirewall(e.resources, res);
    assert res in f <==> res.EnablementFile? && 5 <= res.slot <= 10;
    In(a, b, res);
    In(a + b, c, res);
    In(a + b + c, d, res);
    In(a + b + c + d, f, res);
    hide FirewallResources;
  }

  /** The optional parts, apart from startup and rotation. */
  predicate DueAuxiliary(r: Record, res: Resource) {
    && (res.TunnelFile? || res.ServingFile? || res.FirewallUnit? || res.FirewallRule? || res.RetiredFiles?
        || res.MigrationFiles? || res.EnablementFile? || res.LinkStagingFile?)
    && Due(r, res)
  }

  lemma InSeven<T>(a: seq<T>, b: seq<T>, c: seq<T>, d: seq<T>, e: seq<T>, f: seq<T>, g: seq<T>, x: T)
    ensures x in a + b + c + d + e + f + g <==>
      x in a || x in b || x in c || x in d || x in e || x in f || x in g
  {
    In(a, b, x);
    In(a + b, c, x);
    In(a + b + c, d, x);
    In(a + b + c + d, e, x);
    In(a + b + c + d + e, f, x);
    In(a + b + c + d + e + f, g, x);
  }

  /** One optional part of the list. */
  function Part(r: Record, k: nat): (resources: seq<Resource>) {
    if k == 0 then if r.tunnel.Some? then [TunnelFile(0), TunnelFile(1), TunnelFile(2)] else []
    else if k == 1 then if r.serving.Some? then SERVING_FILES else []
    else if k == 2 then if r.subscription.Some? then FirewallResources(r.subscription.value) else []
    else if k == 3 then if r.retired then [RetiredFiles] else []
    else if k == 4 then if r.retired && r.migration then [MigrationFiles] else []
    else if k == 5 then if r.enablement.Some? then EnablementResources(r.enablement.value) else []
    else if k == 6 then if r.link.Some? then [LinkStagingFile(0), LinkStagingFile(1)] else []
    else []
  }

  predicate PartDue(r: Record, k: nat, res: Resource) {
    if k == 0 then r.tunnel.Some? && res.TunnelFile? && res.slot <= 2
    else if k == 1 then r.serving.Some? && res.ServingFile? && res.slot <= 4
    else if k == 2 then
      && r.subscription.Some?
      && (res == FirewallUnit(r.subscription.value.firewall) || res == FirewallRule(r.subscription.value.address))
    else if k == 3 then r.retired && res.RetiredFiles?
    else if k == 4 then r.retired && r.migration && res.MigrationFiles?
    else if k == 5 then
      && r.enablement.Some?
      && (|| (res.ServingFile? && res.slot <= 4 && ServesAt(r.enablement.value, res.slot))
          || (res.EnablementFile? && Prepares(r.enablement.value, res.slot))
          || res == FirewallUnit(r.enablement.value.resources.firewall)
          || res == FirewallRule(r.enablement.value.resources.address))
    else k == 6 && r.link.Some? && res.LinkStagingFile? && res.slot <= 1
  }

  lemma InPart(r: Record, k: nat, res: Resource)
    ensures res in Part(r, k) <==> PartDue(r, k, res)
  {
    InFixed(res);
    if r.subscription.Some? {
      InFirewall(r.subscription.value, res);
    }
    if r.enablement.Some? {
      InEnablement(r.enablement.value, res);
    }
    hide EnablementResources, FirewallResources, ServesAt, Prepares;
  }

  lemma Parts(r: Record)
    ensures Auxiliary(r) ==
      Part(r, 0) + Part(r, 1) + Part(r, 2) + Part(r, 3) + Part(r, 4) + Part(r, 5) + Part(r, 6)
  {
    hide EnablementResources, FirewallResources;
  }

  lemma InAuxiliary(r: Record, res: Resource)
    ensures res in Auxiliary(r) <==> DueAuxiliary(r, res)
  {
    hide *;
    Parts(r);
    InSeven(Part(r, 0), Part(r, 1), Part(r, 2), Part(r, 3), Part(r, 4), Part(r, 5), Part(r, 6), res);
    InPart(r, 0, res);
    InPart(r, 1, res);
    InPart(r, 2, res);
    InPart(r, 3, res);
    InPart(r, 4, res);
    InPart(r, 5, res);
    InPart(r, 6, res);
    Judged(r, res);
  }

  lemma Judged(r: Record, res: Resource)
    ensures DueAuxiliary(r, res) <==>
      || PartDue(r, 0, res) || PartDue(r, 1, res) || PartDue(r, 2, res) || PartDue(r, 3, res)
      || PartDue(r, 4, res) || PartDue(r, 5, res) || PartDue(r, 6, res)
  {
    hide ServesAt, Prepares;
  }

  lemma InPrior(r: Record, res: Resource)
    ensures res in PriorResources(r) <==>
      || DueAuxiliary(r, res)
      || ((res.OwnershipFile? || res.ConfigFile? || res.BaseFile? || res.ProductFile? || res.LockFile?) && Due(r, res))
  {
    InAuxiliary(r, res);
    InFixed(res);
    hide Auxiliary, ServesAt, Prepares;
    if r.package {
      var fixed := [BaseFile(9), BaseFile(10), BaseFile(11), BaseFile(12)];
      var lock := if r.lockUnit then [LockFile(0), LockFile(1), LockFile(2)] else [];
      In(fixed, lock, res);
      In(fixed + lock, Auxiliary(r), res);
      In([OwnershipFile(r.schema)], BASE_FILES, res);
      In([OwnershipFile(r.schema)] + BASE_FILES, [ConfigFile(r.config)], res);
      In([OwnershipFile(r.schema)] + BASE_FILES + [ConfigFile(r.config)], Trailing(r), res);
    } else {
      In([OwnershipFile(r.schema), BaseFile(0), ProductFile(0), ProductFile(1)], Auxiliary(r), res);
    }
  }

  lemma InStartup(r: Record, res: Resource)
    ensures res in StartupFootprint(r) <==> (res.StartupFile? || res.StartupDirectory?) && Due(r, res)
  {
  }

  lemma InRotation(r: Record, res: Resource)
    ensures res in RotationFootprint(r) <==>
      && (res.TargetFile? || res.TargetFileNext? || res.ConfigNext? || res.StartupNext? || res.StagedArtifact?
          || res.IdentityStagingFile?)
      && Due(r, res)
  {
    if r.rotation.Some? {
      InOperation(r.rotation.value.target, TargetArtifact(r.rotation.value), res);
    }
    hide OperationResources;
  }

  lemma InOperation(target: string, artifact: Option<string>, res: Resource)
    ensures res in OperationResources(target, artifact) <==>
      || res in [TargetFile(target), TargetFileNext, ConfigNext(target), StartupNext]
      || (artifact.Some? && (res == StagedArtifact(artifact.value) || (res.IdentityStagingFile? && res.slot <= 4)))
  {
  }

  /** A valid record lists a resource exactly if its fields call for it. */
  lemma OwnsExactly(r: Record, res: Resource)
    requires Valid(r)
    ensures res in r.resources <==> Due(r, res)
  {
    ListsFootprint(r);
    InPrior(r, res);
    InStartup(r, res);
    InRotation(r, res);
    In(PriorResources(r), StartupFootprint(r), res);
    In(PriorResources(r) + StartupFootprint(r), RotationFootprint(r), res);
    hide Valid, PriorResources, StartupFootprint, RotationFootprint, ServesAt, Prepares;
  }

  lemma ListsFootprint(r: Record)
    requires Valid(r)
    ensures r.resources == Resources(r)
  {
    hide Resources, SchemaShape, OperationShape, ProgressShape;
  }
}
