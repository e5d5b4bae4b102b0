/**
 The record transitions of a Client Identity rotation: begin, advance one
 checkpoint, clear, and the structural successor check built from them.
 */
module IdentityRecords {
  import opened Wrappers
  import opened Records

  /** SHA-256 of the fixed startup integration text. */
  const DROP_IN: string := "6f38bfb97c5eb513f497e9149983bfcfb576f08461f7f5ec0119c16294980a7a"

  datatype Material = Material(source: string, target: string, sourceArtifact: string, targetArtifact: string)

  function Integration(directoryCreated: bool): (startup: Startup) { Startup(DROP_IN, directoryCreated) }

  /** The host takes a startup directory for its own exactly when it finds none. */
  function Admitted(found: bool): (startup: Startup)
    ensures startup.directoryCreated != found
  {
    Integration(!found)
  }

  function RotationOf(r: Record): (result: Result<Rotation>) {
    if r.phase != Running || r.direction != Idle || r.rotation.None? then Err else Ok(r.rotation.value)
  }

  // ----- Begin -----------------------------------------------------------------

  /** Schema 1 gains its creator list on the first schema-2 operation. */
  function Upgrade(r: Record): (next: Record) {
    if r.schema == 1 then
      r.(schema := 2,
         resources := if |r.resources| == 0 then [] else r.resources[0 := OwnershipFile(2)],
         creators := Some(seq(|r.resources|, _ => r.release)))
    else r
  }

  function Append(r: Record, additions: seq<Resource>, creator: Release): (result: Result<Record>) {
    if r.creators.None? then Err
    else Ok(r.(resources := r.resources + additions,
               creators := Some(r.creators.value + seq(|additions|, _ => creator))))
  }

  function Integrate(r: Record, startup: Startup, creator: Release): (result: Result<Record>) {
    if r.startup.Some? then
      if r.startup.value != startup then Err else Ok(r)
    else
      Append(r.(startup := Some(startup)), StartupResources(startup), creator)
  }

  function Subscription(r: Record, m: Material): (found: Option<ClientSubscription>) {
    if r.serving.Some?
    then Some(ClientSubscription(r.serving.value, r.serving.value, m.sourceArtifact, m.targetArtifact))
    else None
  }

  function BeginRecord(r: Record, operation: string, m: Material, startup: Startup, creator: Release)
    : (result: Result<Record>)
  {
    if r.phase != Running || r.direction != Idle || PendingChange(r).Some?
       || r.config != m.source || m.source == m.target || r.finisher.Some?
    then Err
    else
      var integrated :- Integrate(Upgrade(r), startup, creator);
      var begun := integrated.(rotation := Some(
        Rotation(operation, Backward, [], m.source, m.target, Authorized, Subscription(r, m))));
      var artifact := if r.serving.Some? then Some(m.targetArtifact) else None;
      var staged :- Append(begun, OperationResources(m.target, artifact), creator);
      Validated(staged)
  }

  // ----- Advance ---------------------------------------------------------------

  /** Rewrites the first configuration resource, and only that one. */
  function SelectConfig(rs: seq<Resource>, sha: string): (result: Result<seq<Resource>>) {
    if rs == [] then Err
    else if rs[0].ConfigFile? then Ok([ConfigFile(sha)] + rs[1..])
    else
      var rest :- SelectConfig(rs[1..], sha);
      Ok([rs[0]] + rest)
  }

  function AdvanceRecord(r: Record): (result: Result<Record>) {
    var v :- RotationOf(r);
    var next :- FromIndex(v.checkpoint.Index() + 1);
    var moved := r.(rotation := Some(v.(checkpoint := next,
                                        completed := EFFECTS[..next.Index()],
                                        direction := next.Direction())));
    if next == TargetPublished then
      var rs :- SelectConfig(r.resources, v.target);
      Validated(moved.(config := v.target, resources := rs))
    else
      Validated(moved)
  }

  // ----- Clear -----------------------------------------------------------------

  function KeepResources(rs: seq<Resource>, remove: seq<Resource>): (resources: seq<Resource>) {
    if rs == [] then []
    else (if rs[0] in remove then [] else [rs[0]]) + KeepResources(rs[1..], remove)
  }

  function KeepCreators(rs: seq<Resource>, cs: seq<Release>, remove: seq<Resource>): (creators: seq<Release>)
    requires |rs| == |cs|
  {
    if rs == [] then []
    else (if rs[0] in remove then [] else [cs[0]]) + KeepCreators(rs[1..], cs[1..], remove)
  }

  /** The resources a clear drops: the operation's staging, and the integration if not retained. */
  function Removed(r: Record, retain: bool): (resources: seq<Resource>)
    requires r.rotation.Some? && (retain || r.startup.Some?)
  {
    var v := r.rotation.value;
    var staging := OperationResources(v.target, TargetArtifact(v));
    if retain then staging
    else staging + StartupResources(Integration(r.startup.value.directoryCreated))
  }

  function ClearRecord(r: Record, retain: bool): (result: Result<Record>) {
    var v :- RotationOf(r);
    if v.checkpoint.Direction() == Forward && (v.checkpoint != TargetStarted || !retain) then Err
    else if r.creators.None? || |r.creators.value| != |r.resources| then Err
    else if !retain && r.startup.None? then Err
    else
      Validated(r.(rotation := None,
                   startup := if retain then r.startup else None,
                   resources := KeepResources(r.resources, Removed(r, retain)),
                   creators := Some(KeepCreators(r.resources, r.creators.value, Removed(r, retain)))))
  }

  // ----- Structural successor --------------------------------------------------

  /** The secret-free metadata an open rotation records. */
  function MaterialOf(v: Rotation): (material: Material) {
    Material(v.source, v.target,
             if v.subscription.Some? then v.subscription.value.sourceArtifact else "",
             if v.subscription.Some? then v.subscription.value.targetArtifact else "")
  }

  function InitialSuccessor(source: Record, next: Record): (result: Result<Record>) {
    var v :- RotationOf(next);
    if v.checkpoint != Authorized || next.startup.None? || next.creators.None? || next.creators.value == [] then Err
    else
      BeginRecord(source, v.operation, MaterialOf(v), Integration(next.startup.value.directoryCreated),
                  next.creators.value[|next.creators.value| - 1])
  }

  predicate PermitsIdentity(source: Record, next: Record) {
    || source == next
    || InitialSuccessor(source, next) == Ok(next)
    || AdvanceRecord(source) == Ok(next)
    || ClearRecord(source, true) == Ok(next)
    || ClearRecord(source, false) == Ok(next)
  }

  // ----- Advancing is never refused by validation ------------------------------

  /** The record that shows checkpoint c of the rotation already open in r. */
  function At(r: Record, c: Checkpoint): (next: Record)
    requires r.rotation.Some?
  {
    var v := r.rotation.value;
    var moved := r.(rotation := Some(v.(checkpoint := c, completed := EFFECTS[..c.Index()],
                                        direction := c.Direction())),
                    config := if c.Index() >= 9 then v.target else v.source);
    moved.(resources := Resources(moved))
  }

  lemma SelectConfigSkips(a: seq<Resource>, old_: string, b: seq<Resource>, sha: string)
    requires forall i :: 0 <= i < |a| ==> !a[i].ConfigFile?
    ensures SelectConfig(a + [ConfigFile(old_)] + b, sha) == Ok(a + [ConfigFile(sha)] + b)
  {
    var whole := a + [ConfigFile(old_)] + b;
    if a == [] {
      assert whole == [ConfigFile(old_)] + b;
      assert whole[1..] == b;
      assert a + [ConfigFile(sha)] + b == [ConfigFile(sha)] + b;
    } else {
      assert whole[1..] == a[1..] + [ConfigFile(old_)] + b;
      SelectConfigSkips(a[1..], old_, b, sha);
      assert [a[0]] + (a[1..] + [ConfigFile(sha)] + b) == a + [ConfigFile(sha)] + b;
    }
  }

  /** Only the configuration resource depends on the recorded configuration. */
  lemma ConfigSlot(r: Record, moved: Record, sha: string)
    requires r.package && moved.package
    requires r.schema == moved.schema && Trailing(r) == Trailing(moved) && moved.config == sha
    requires StartupFootprint(r) == StartupFootprint(moved) && RotationFootprint(r) == RotationFootprint(moved)
    ensures SelectConfig(Resources(r), sha) == Ok(Resources(moved))
    ensures |Resources(r)| == |Resources(moved)|
    ensures r.config == moved.config ==> Resources(r) == Resources(moved)
  {
    var head := [OwnershipFile(r.schema)] + BASE_FILES;
    var tail := Trailing(r) + StartupFootprint(r) + RotationFootprint(r);
    assert Resources(r) == head + [ConfigFile(r.config)] + tail;
    assert Resources(moved) == head + [ConfigFile(sha)] + tail;
    SelectConfigSkips(head, r.config, tail, sha);
  }

  lemma AtFootprint(r: Record, c: Checkpoint)
    requires r.rotation.Some?
    ensures var m := At(r, c);
      && Trailing(m) == Trailing(r)
      && StartupFootprint(m) == StartupFootprint(r)
      && RotationFootprint(m) == RotationFootprint(r)
      && m.resources == Resources(m)
  {
    var m := At(r, c);
    var unstated := m.(resources := r.resources);
    assert Auxiliary(m) == Auxiliary(r) == Auxiliary(unstated);
    assert PriorResources(m) == PriorResources(unstated);
    assert StartupFootprint(m) == StartupFootprint(unstated);
    assert RotationFootprint(m) == RotationFootprint(unstated);
  }

  /** Every checkpoint of an open rotation is itself a valid record. */
  lemma AtIsValid(r: Record, c: Checkpoint)
    requires Valid(r) && r.rotation.Some?
    ensures Valid(At(r, c)) && At(r, c).creators == r.creators
    ensures c == r.rotation.value.checkpoint ==> At(r, c) == r
  {
    AtFootprint(r, c);
    ConfigSlot(r, At(r, c), At(r, c).config);
  }

  /** What validity says of an open rotation, without the rest. */
  lemma OpenFacts(r: Record)
    requires Valid(r) && RotationOf(r).Ok?
    ensures r.rotation.Some? && r.package && r.resources == Resources(r)
    ensures r.config == (if r.rotation.value.checkpoint.Index() >= 9 then r.rotation.value.target
                         else r.rotation.value.source)
  {
    hide Resources, SchemaShape;
  }

  lemma IndexInverts(c: Checkpoint)
    ensures FromIndex(c.Index()) == Ok(c)
  {
  }

  lemma AdvanceBuilds(r: Record, next: Checkpoint)
    requires Valid(r) && RotationOf(r).Ok? && next.Index() == r.rotation.value.checkpoint.Index() + 1
    ensures AdvanceRecord(r) == Validated(At(r, next))
  {
    OpenFacts(r);
    AtFootprint(r, next);
    IndexInverts(next);
    hide Valid, Resources, Trailing, StartupFootprint, RotationFootprint, FromIndex, Validated, SelectConfig;
    ConfigSlot(r, At(r, next), At(r, next).config);
    assert next == TargetPublished <==> next.Index() == 9;
  }

  lemma LastIsRefused(r: Record)
    requires RotationOf(r).Ok? && r.rotation.value.checkpoint == TargetStarted
    ensures AdvanceRecord(r).Err?
  {
    hide Valid;
  }

  lemma NextIndex(c: Checkpoint)
    requires c != TargetStarted
    ensures FromIndex(c.Index() + 1).Ok? && FromIndex(c.Index() + 1).value.Index() == c.Index() + 1
  {
  }

  /** Advancing moves one checkpoint and is refused only after the last. */
  lemma AdvanceIsAt(r: Record)
    requires Valid(r) && RotationOf(r).Ok?
    ensures AdvanceRecord(r).Ok? <==> r.rotation.value.checkpoint != TargetStarted
    ensures AdvanceRecord(r).Ok? ==>
      AdvanceRecord(r).value == At(r, FromIndex(r.rotation.value.checkpoint.Index() + 1).value)
  {
    OpenRotation(r);
    hide *;
    var c := r.rotation.value.checkpoint;
    if c == TargetStarted {
      LastIsRefused(r);
    } else {
      NextIndex(c);
      var next := FromIndex(c.Index() + 1).value;
      AdvanceBuilds(r, next);
      AtIsValid(r, next);
      ValidatedIs(At(r, next));
    }
  }

  lemma OpenRotation(r: Record)
    requires RotationOf(r).Ok?
    ensures r.rotation.Some?
  {
  }

  // ----- Beginning -------------------------------------------------------------

  /** What a caller can check before beginning. */
  predicate BeginAllowed(r: Record, operation: string, m: Material, startup: Startup) {
    && r.phase == Running && r.direction == Idle && PendingChange(r).None?
    && r.config == m.source && m.source != m.target && LowerHex(m.target, 64)
    && OperationName(operation) && NonzeroHex(startup.dropIn, 64)
    && (r.startup.Some? ==> r.startup.value == startup)
    && (r.serving.Some? ==> && NonzeroHex(m.sourceArtifact, 64) && NonzeroHex(m.targetArtifact, 64)
                            && m.sourceArtifact != m.targetArtifact)
  }

  /** How many resources the new startup integration adds. */
  function NewStartup(r: Record, startup: Startup): (resources: seq<Resource>) {
    if r.startup.Some? then [] else StartupResources(startup)
  }

  function Staging(r: Record, m: Material): (resources: seq<Resource>) {
    OperationResources(m.target, if r.serving.Some? then Some(m.targetArtifact) else None)
  }

  /** The record with the rotation open at its first checkpoint. */
  function Opened(r: Record, operation: string, m: Material, startup: Startup, creator: Release): (next: Record)
    requires Upgrade(r).creators.Some?
  {
    var u := Upgrade(r);
    u.(startup := Some(startup),
       rotation := Some(Rotation(operation, Backward, [], m.source, m.target, Authorized, Subscription(r, m))),
       resources := u.resources + NewStartup(r, startup) + Staging(r, m),
       creators := Some(u.creators.value + seq(|NewStartup(r, startup)|, _ => creator)
                                         + seq(|Staging(r, m)|, _ => creator)))
  }

  lemma UpgradeIsValid(r: Record)
    requires Valid(r) && r.phase == Running && r.direction == Idle
    ensures Valid(Upgrade(r)) && Upgrade(r).schema == 2
    ensures r.schema == 2 ==> Upgrade(r) == r
    ensures Upgrade(r).rotation == r.rotation && Upgrade(r).startup == r.startup
    ensures Upgrade(r).serving == r.serving && Upgrade(r).config == r.config
  {
    var u := Upgrade(r);
    if r.schema == 1 {
      FootprintDepends(r, u);
      hide Resources;
      assert OperationShape(u);
    }
  }

  lemma OpenedFootprint(r: Record, operation: string, m: Material, startup: Startup, creator: Release)
    requires Valid(r) && BeginAllowed(r, operation, m, startup)
    ensures Upgrade(r).creators.Some?
    ensures var o := Opened(r, operation, m, startup, creator);
      o.resources == Resources(o) && |o.creators.value| == |o.resources|
  {
    UpgradeIsValid(r);
    var u := Upgrade(r);
    var o := Opened(r, operation, m, startup, creator);
    assert Trailing(o) == Trailing(u);
    assert PriorResources(o) == PriorResources(u);
    assert RotationFootprint(o) == Staging(r, m);
    assert RotationFootprint(u) == [];
    if r.startup.Some? {
      assert u.resources == PriorResources(u) + StartupFootprint(u);
      assert StartupFootprint(u) == StartupFootprint(o);
      assert u.resources + [] == u.resources;
    } else {
      assert u.resources == PriorResources(u);
    }
  }

  lemma OpenedIsValid(r: Record, operation: string, m: Material, startup: Startup, creator: Release)
    requires Valid(r) && BeginAllowed(r, operation, m, startup)
    ensures Upgrade(r).creators.Some?
    ensures Valid(Opened(r, operation, m, startup, creator))
  {
    UpgradeIsValid(r);
    OpenedFootprint(r, operation, m, startup, creator);
    var o := Opened(r, operation, m, startup, creator);
    assert SchemaShape(o);
    assert ProgressShape(o);
    assert o.rotation.value.completed == EFFECTS[..0];
    assert OperationShape(o);
  }

  /** The unvalidated record that beginning constructs is the opened record. */
  lemma BeginBuilds(r: Record, operation: string, m: Material, startup: Startup, creator: Release)
    requires Upgrade(r).creators.Some?
    requires r.startup.Some? ==> r.startup.value == startup
    ensures var integrated := Integrate(Upgrade(r), startup, creator);
      && integrated.Ok?
      && Append(integrated.value.(rotation := Some(
           Rotation(operation, Backward, [], m.source, m.target, Authorized, Subscription(r, m)))),
         Staging(r, m), creator) == Ok(Opened(r, operation, m, startup, creator))
  {
    var u := Upgrade(r);
    assert u.startup == r.startup;
    hide Upgrade, Staging, Subscription;
    if r.startup.Some? {
      assert u.resources + NewStartup(r, startup) == u.resources;
      assert u.creators.value + seq(|NewStartup(r, startup)|, _ => creator) == u.creators.value;
    }
  }

  predicate BeginGuard(r: Record, m: Material, startup: Startup) {
    && r.phase == Running && r.direction == Idle && PendingChange(r).None?
    && r.config == m.source && m.source != m.target
    && (r.startup.Some? ==> r.startup.value == startup)
  }

  lemma BeginReduces(r: Record, operation: string, m: Material, startup: Startup, creator: Release)
    requires Valid(r)
    ensures !BeginGuard(r, m, startup) ==> BeginRecord(r, operation, m, startup, creator).Err?
    ensures BeginGuard(r, m, startup) ==>
      && Upgrade(r).creators.Some?
      && BeginRecord(r, operation, m, startup, creator) == Validated(Opened(r, operation, m, startup, creator))
  {
    if r.phase == Running && r.direction == Idle {
      UpgradeIsValid(r);
      if BeginGuard(r, m, startup) {
        BeginBuilds(r, operation, m, startup, creator);
      }
    }
  }

  lemma OpenedNeedsNames(r: Record, operation: string, m: Material, startup: Startup, creator: Release)
    requires BeginGuard(r, m, startup) && Upgrade(r).creators.Some?
    requires OperationShape(Opened(r, operation, m, startup, creator))
    ensures BeginAllowed(r, operation, m, startup)
  {
    var o := Opened(r, operation, m, startup, creator);
    assert ValidRotation(o.rotation.value, o.startup, o.config);
    if r.serving.Some? {
      assert ValidClientSubscription(o.rotation.value.subscription.value);
    }
  }

  /** Beginning succeeds exactly when the caller's checks hold, and adds only staging. */
  lemma BeginIsOpened(r: Record, operation: string, m: Material, startup: Startup, creator: Release)
    requires Valid(r)
    ensures BeginRecord(r, operation, m, startup, creator).Ok? <==> BeginAllowed(r, operation, m, startup)
    ensures BeginRecord(r, operation, m, startup, creator).Ok? ==>
      && Upgrade(r).creators.Some?
      && BeginRecord(r, operation, m, startup, creator).value == Opened(r, operation, m, startup, creator)
  {
    BeginReduces(r, operation, m, startup, creator);
    if BeginAllowed(r, operation, m, startup) {
      OpenedIsValid(r, operation, m, startup, creator);
    } else if BeginGuard(r, m, startup) && Valid(Opened(r, operation, m, startup, creator)) {
      OpenedNeedsNames(r, operation, m, startup, creator);
    }
  }

  // ----- Clearing --------------------------------------------------------------

  lemma {:induction false} KeepSplit(a: seq<Resource>, b: seq<Resource>, remove: seq<Resource>)
    ensures KeepResources(a + b, remove) == KeepResources(a, remove) + KeepResources(b, remove)
  {
    if a == [] {
      assert a + b == b;
    } else {
      assert (a + b)[1..] == a[1..] + b;
      KeepSplit(a[1..], b, remove);
    }
  }

  lemma {:induction false} KeepCreatorsSplit(a: seq<Resource>, b: seq<Resource>, ca: seq<Release>, cb: seq<Release>,
                                             remove: seq<Resource>)
    requires |a| == |ca| && |b| == |cb|
    ensures KeepCreators(a + b, ca + cb, remove) == KeepCreators(a, ca, remove) + KeepCreators(b, cb, remove)
  {
    if a == [] {
      assert a + b == b && ca + cb == cb;
    } else {
      assert (a + b)[1..] == a[1..] + b && (ca + cb)[1..] == ca[1..] + cb;
      KeepCreatorsSplit(a[1..], b, ca[1..], cb, remove);
    }
  }

  lemma KeepAll(a: seq<Resource>, ca: seq<Release>, remove: seq<Resource>)
    requires |a| == |ca| && forall x :: x in a ==> x !in remove
    ensures KeepResources(a, remove) == a && KeepCreators(a, ca, remove) == ca
  {
    if a != [] {
      KeepAll(a[1..], ca[1..], remove);
      assert a == [a[0]] + a[1..] && ca == [ca[0]] + ca[1..];
    }
  }

  lemma KeepNone(a: seq<Resource>, ca: seq<Release>, remove: seq<Resource>)
    requires |a| == |ca| && forall x :: x in a ==> x in remove
    ensures KeepResources(a, remove) == [] && KeepCreators(a, ca, remove) == []
  {
    if a != [] {
      KeepNone(a[1..], ca[1..], remove);
    }
  }

  predicate Transient(x: Resource) {
    || x.TargetFile? || x.TargetFileNext? || x.ConfigNext? || x.StartupNext?
    || x.StagedArtifact? || x.IdentityStagingFile?
  }

  predicate StartupOwned(x: Resource) { x.StartupFile? || x.StartupDirectory? }

  predicate Plain(rs: seq<Resource>) {
    forall i :: 0 <= i < |rs| ==> !Transient(rs[i]) && !StartupOwned(rs[i])
  }

  lemma PlainJoin(a: seq<Resource>, b: seq<Resource>)
    requires Plain(a) && Plain(b)
    ensures Plain(a + b)
  {
  }

  lemma PlainEnablement(e: Enablement)
    ensures Plain(EnablementResources(e))
  {
    var a := if e.serving.Some? then SERVING_FILES
             else [EnablementFile(0), EnablementFile(1), ServingFile(0), EnablementFile(2)];
    var b := FirewallResources(e.resources);
    var c := if 8 <= e.checkpoint <= 14 then [EnablementFile(3)] else [];
    var d := if 8 <= e.checkpoint <= 15 then [EnablementFile(4)] else [];
    PlainJoin(a, b);
    PlainJoin(a + b, c);
    PlainJoin(a + b + c, d);
  }

  lemma PlainSeven(a: seq<Resource>, b: seq<Resource>, c: seq<Resource>, d: seq<Resource>, e: seq<Resource>,
                   f: seq<Resource>, g: seq<Resource>)
    requires Plain(a) && Plain(b) && Plain(c) && Plain(d) && Plain(e) && Plain(f) && Plain(g)
    ensures Plain(a + b + c + d + e + f + g)
  {
    hide *;
    PlainJoin(a, b);
    PlainJoin(a + b, c);
    PlainJoin(a + b + c, d);
    PlainJoin(a + b + c + d, e);
    PlainJoin(a + b + c + d + e, f);
    PlainJoin(a + b + c + d + e + f, g);
  }

  lemma PlainAuxiliary(r: Record)
    ensures Plain(Auxiliary(r))
  {
    hide EnablementResources;
    var f := if r.enablement.Some? then EnablementResources(r.enablement.value) else [];
    if r.enablement.Some? { PlainEnablement(r.enablement.value); }
    PlainSeven(
      if r.tunnel.Some? then [TunnelFile(0), TunnelFile(1), TunnelFile(2)] else [],
      if r.serving.Some? then SERVING_FILES else [],
      if r.subscription.Some? then FirewallResources(r.subscription.value) else [],
      if r.retired then [RetiredFiles] else [],
      if r.retired && r.migration then [MigrationFiles] else [],
      f,
      if r.link.Some? then [LinkStagingFile(0), LinkStagingFile(1)] else []);
  }

  lemma Separate(r: Record)
    ensures Plain(PriorResources(r))
    ensures forall x :: x in StartupFootprint(r) ==> StartupOwned(x)
    ensures forall x :: x in RotationFootprint(r) ==> Transient(x)
  {
    PlainAuxiliary(r);
    assert Plain(BASE_FILES);
    assert Plain(Trailing(r));
  }

  /** A cleared record, described by what it keeps. */
  function Closed(r: Record, retain: bool): (next: Record)
    requires r.creators.Some? && |r.creators.value| == |Resources(r)|
  {
    var kept := if retain then |PriorResources(r)| + |StartupFootprint(r)| else |PriorResources(r)|;
    r.(rotation := None, startup := if retain then r.startup else None,
       resources := Resources(r)[..kept], creators := Some(r.creators.value[..kept]))
  }

  /** Removing a middle and a last part, or only the last, keeps what precedes with its creators. */
  lemma KeepPrefix(p: seq<Resource>, s: seq<Resource>, o: seq<Resource>, cs: seq<Release>,
                   remove: seq<Resource>, retain: bool)
    requires |cs| == |p| + |s| + |o|
    requires forall x :: x in p ==> x !in remove
    requires forall x :: x in o ==> x in remove
    requires forall x :: x in s ==> (retain <==> x !in remove)
    ensures var n := if retain then |p| + |s| else |p|;
      && KeepResources(p + s + o, remove) == (p + s + o)[..n]
      && KeepCreators(p + s + o, cs, remove) == cs[..n]
  {
    var cp, cm, co := cs[..|p|], cs[|p|..|p| + |s|], cs[|p| + |s|..];
    assert cs == (cp + cm) + co;
    KeepSplit(p + s, o, remove);
    KeepSplit(p, s, remove);
    KeepCreatorsSplit(p + s, o, cp + cm, co, remove);
    KeepCreatorsSplit(p, s, cp, cm, remove);
    KeepAll(p, cp, remove);
    KeepNone(o, co, remove);
    if retain {
      KeepAll(s, cm, remove);
      assert cs[..|p| + |s|] == cp + cm;
    } else {
      KeepNone(s, cm, remove);
    }
  }

  lemma RemovedMembers(r: Record, retain: bool)
    requires r.rotation.Some? && r.startup.Some?
    requires retain || r.startup.value.dropIn == DROP_IN
    ensures forall x :: x in PriorResources(r) ==> x !in Removed(r, retain)
    ensures forall x :: x in RotationFootprint(r) ==> x in Removed(r, retain)
    ensures forall x :: x in StartupFootprint(r) ==> (retain <==> x !in Removed(r, retain))
  {
    Separate(r);
    var s, o := StartupFootprint(r), RotationFootprint(r);
    if retain {
      assert Removed(r, retain) == o;
    } else {
      assert s == StartupResources(Integration(r.startup.value.directoryCreated));
      assert Removed(r, retain) == o + s;
    }
  }

  lemma KeepClosed(r: Record, retain: bool)
    requires r.rotation.Some? && r.startup.Some? && r.resources == Resources(r)
    requires r.creators.Some? && |r.creators.value| == |r.resources|
    requires retain || r.startup.value.dropIn == DROP_IN
    ensures KeepResources(r.resources, Removed(r, retain)) == Closed(r, retain).resources
    ensures KeepCreators(r.resources, r.creators.value, Removed(r, retain)) == Closed(r, retain).creators.value
  {
    RemovedMembers(r, retain);
    KeepPrefix(PriorResources(r), StartupFootprint(r), RotationFootprint(r), r.creators.value,
               Removed(r, retain), retain);
  }

  lemma ClosedIsValid(r: Record, retain: bool)
    requires Valid(r) && RotationOf(r).Ok?
    ensures Valid(Closed(r, retain))
  {
    var c := Closed(r, retain);
    assert Trailing(c) == Trailing(r);
    assert PriorResources(c) == PriorResources(r);
    assert c.resources == Resources(c);
  }

  lemma {:induction false} KeepMember(rs: seq<Resource>, remove: seq<Resource>, x: Resource)
    requires x in rs && x !in remove
    ensures x in KeepResources(rs, remove)
  {
    if rs[0] != x {
      KeepMember(rs[1..], remove, x);
    }
  }

  lemma ForeignIsKept(r: Record)
    requires Valid(r) && r.rotation.Some? && r.startup.Some? && r.startup.value.dropIn != DROP_IN
    ensures var x := StartupFile(r.startup.value.dropIn); x in r.resources && x !in Removed(r, false)
  {
    hide PriorResources, SchemaShape, OperationShape, ProgressShape;
    assert StartupFile(r.startup.value.dropIn) in StartupFootprint(r);
  }

  lemma ClearedParts(r: Record)
    requires r.startup.Some? && ClearRecord(r, false).Ok?
    ensures var n := ClearRecord(r, false).value;
      && Valid(n) && n.startup.None? && n.rotation.None? && r.rotation.Some?
      && n.resources == KeepResources(r.resources, Removed(r, false))
  {
    hide Valid, KeepResources, KeepCreators, Removed;
  }

  lemma WithoutIntegration(n: Record)
    requires Valid(n) && n.startup.None? && n.rotation.None?
    ensures Plain(n.resources)
  {
    hide PriorResources, SchemaShape, OperationShape, ProgressShape;
    Separate(n);
    assert Resources(n) == PriorResources(n);
  }

  /** An integration of other text is not among what a clear removes, so dropping it cannot validate. */
  lemma ForeignIntegrationStays(r: Record)
    requires Valid(r) && r.rotation.Some? && r.startup.Some? && r.startup.value.dropIn != DROP_IN
    ensures ClearRecord(r, false).Err?
  {
    hide Valid, ClearRecord, KeepResources, Removed;
    if ClearRecord(r, false).Ok? {
      ForeignIsKept(r);
      ClearedParts(r);
      WithoutIntegration(ClearRecord(r, false).value);
      KeepMember(r.resources, Removed(r, false), StartupFile(r.startup.value.dropIn));
    }
  }

  /**
   Clearing is refused exactly after revocation (unless the target has started
   and the integration stays) and when it would drop an integration of other text.
   */
  lemma ClearIsClosed(r: Record, retain: bool)
    requires Valid(r) && RotationOf(r).Ok?
    ensures r.startup.Some?
    ensures ClearRecord(r, retain).Ok? <==>
      || (r.rotation.value.checkpoint.Index() < 8 && (retain || r.startup.value.dropIn == DROP_IN))
      || (r.rotation.value.checkpoint == TargetStarted && retain)
    ensures ClearRecord(r, retain).Ok? ==> ClearRecord(r, retain).value == Closed(r, retain)
  {
    OwnsItsFootprint(r);
    hide Valid, ClearRecord, Closed, Resources;
    if retain || r.startup.value.dropIn == DROP_IN {
      KeepClosed(r, retain);
      ClosedIsValid(r, retain);
      ClearBuilds(r, retain);
    } else {
      ForeignIntegrationStays(r);
    }
  }

  lemma OwnsItsFootprint(r: Record)
    requires Valid(r) && r.rotation.Some?
    ensures r.startup.Some? && r.resources == Resources(r)
    ensures r.creators.Some? && |r.creators.value| == |r.resources|
  {
    hide Resources;
  }

  lemma ClearBuilds(r: Record, retain: bool)
    requires RotationOf(r).Ok? && r.startup.Some? && r.resources == Resources(r)
    requires r.creators.Some? && |r.creators.value| == |r.resources|
    requires KeepResources(r.resources, Removed(r, retain)) == Closed(r, retain).resources
    requires KeepCreators(r.resources, r.creators.value, Removed(r, retain)) == Closed(r, retain).creators.value
    requires Valid(Closed(r, retain))
    ensures ClearRecord(r, retain) ==
      if r.rotation.value.checkpoint.Index() < 8 || (r.rotation.value.checkpoint == TargetStarted && retain)
      then Ok(Closed(r, retain)) else Err
  {
    hide Valid, Resources, KeepResources, KeepCreators, Removed;
  }
}
