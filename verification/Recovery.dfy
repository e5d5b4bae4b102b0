/**
 What a reader of the store reports. Staged bytes never grant admission and
 never cross a commit barrier: they can only make an otherwise readable record
 refused.
 */
module Recovery {
  import opened Wrappers
  import opened Records
  import opened IdentityRecords
  import IdentityHistory
  import opened Octets
  import opened Durable
  import opened Store

  datatype Report =
    | Absent | CleanupReport | FinishSetupReport | RunningReport | Refused | RemovalReport
    | SubscriptionCleanup | SubscriptionForward | IdentityCleanup | IdentityForward | Historical

  function ReportOf(r: Record): (report: Report) {
    match PendingChange(r)
    case Some(EnablementPending(_)) => SubscriptionCleanup
    case Some(LinkPending(way)) => if way == Backward then SubscriptionCleanup else SubscriptionForward
    case Some(RepairPending(way)) => if way == Backward then SubscriptionCleanup else SubscriptionForward
    case Some(IdentityPending(way)) => if way == Backward then IdentityCleanup else IdentityForward
    case Some(MigrationPending) => Historical
    case Some(RemovalPending(_)) => RemovalReport
    case None =>
      match r.direction
      case Cleanup => CleanupReport
      case FinishSetup => FinishSetupReport
      case Idle => RunningReport
      case Removal => RemovalReport
  }

  /** The staged record would take the current one over a commit barrier. */
  predicate Crosses(current: Record, staged: Record) {
    || (match ReportOf(current)
        case CleanupReport => ReportOf(staged) != CleanupReport
        case RunningReport => ReportOf(staged) != RunningReport
        case SubscriptionCleanup => ReportOf(staged) != SubscriptionCleanup && ReportOf(staged) != RunningReport
        case IdentityCleanup => ReportOf(staged) != IdentityCleanup && ReportOf(staged) != RunningReport
        case _ => false)
    || (PendingChange(current).Some? && PendingChange(current).value.EnablementPending?
        && PendingChange(staged).None? && staged.serving.Some?)
  }

  /** A stage the current record recognises as its own successor. */
  predicate Recognised(current: Record, staged: Record) {
    || PermitsSuccessor(current, staged)
    || PermitsIdentity(current, staged)
    || (current.direction == Removal && PermitsRemoval(Some(current), staged))
  }

  function Inspect(current: Option<Record>, staged: Option<Record>): (report: Report) {
    if current.None? then (if staged.None? then Absent else Refused)
    else if staged.Some? && (Crosses(current.value, staged.value) || !Recognised(current.value, staged.value))
    then Refused
    else ReportOf(current.value)
  }

  // ----- What a reader is told ----------------------------------------------------

  /**
   The recovery a record stands for, from how far its one operation, or its setup, has come.
   No recorded direction is consulted.
   */
  function Told(r: Record): (report: Report) {
    if r.rotation.Some? && r.phase == Running then
      if r.rotation.value.checkpoint in {Revoked, TargetPublished, TargetStarted} then IdentityForward
      else IdentityCleanup
    else if r.repair.Some? && r.phase == Running then
      if r.repair.value.step == RepairPrepared then SubscriptionCleanup else SubscriptionForward
    else if r.link.Some? && r.phase == Running then
      if r.link.value.step == LinkCommitted then SubscriptionForward else SubscriptionCleanup
    else if r.enablement.Some? && r.phase == Running then SubscriptionCleanup
    else
      match r.phase
      case Running => if r.migration then Historical else RunningReport
      case RemovalCommitted => RemovalReport
      case ActivationCommitted => FinishSetupReport
      case ServiceEnabled => FinishSetupReport
      case ServiceStarted => FinishSetupReport
      case _ => CleanupReport
  }

  /** A record standing alone is reported as its operation and its phase tell, whatever directions are recorded. */
  lemma ReportIsTold(r: Record)
    requires Valid(r)
    ensures Inspect(Some(r), None) == Told(r)
  {
    OperationsAlone(r);
    DirectionsFollow(r);
    hide Valid;
  }

  /** No two operations are open at once, and none is outside Running or under a removal. */
  lemma OperationsAlone(r: Record)
    requires Valid(r)
    ensures r.rotation.Some? ==> r.repair.None? && r.link.None? && r.enablement.None?
    ensures r.repair.Some? ==> r.link.None? && r.enablement.None?
    ensures r.link.Some? ==> r.enablement.None?
    ensures r.migration ==>
      r.phase == Running && r.rotation.None? && r.repair.None? && r.link.None? && r.enablement.None?
    ensures r.rotation.Some? || r.repair.Some? || r.link.Some? || r.enablement.Some? ==>
      r.phase == Running || r.phase == RemovalCommitted
  {
    hide Resources, SchemaShape, ProgressShape, ValidLink, ValidRepair, ValidRotation, ValidEnablement;
  }

  /** Every recorded direction is the one its step, checkpoint or phase stands for. */
  lemma DirectionsFollow(r: Record)
    requires Valid(r)
    ensures r.link.Some? ==> (r.link.value.direction == Forward <==> r.link.value.step == LinkCommitted)
    ensures r.repair.Some? ==> (r.repair.value.direction == Forward <==> r.repair.value.step != RepairPrepared)
    ensures r.rotation.Some? ==>
      (r.rotation.value.direction == Forward <==>
         r.rotation.value.checkpoint in {Revoked, TargetPublished, TargetStarted})
    ensures r.direction == PhaseDirection(r.phase)
  {
    hide Resources, SchemaShape, Context;
  }

  lemma ToldAlone(r: Record)
    requires Valid(r)
    ensures ReportOf(r) == Told(r)
  {
    ReportIsTold(r);
    hide Valid, Told, ReportOf;
  }

  /** The same, report by report: each is given exactly for these records. */
  lemma ToldExactly(r: Record)
    requires Valid(r)
    ensures var report := Inspect(Some(r), None);
      && (report == IdentityForward <==>
            r.phase == Running && r.rotation.Some? && r.rotation.value.checkpoint.Index() >= 8)
      && (report == IdentityCleanup <==>
            r.phase == Running && r.rotation.Some? && r.rotation.value.checkpoint.Index() < 8)
      && (report == SubscriptionForward <==>
            r.phase == Running
            && ((r.link.Some? && r.link.value.step == LinkCommitted)
                || (r.repair.Some? && r.repair.value.step in {RepairCommitted, RepairAccepted})))
      && (report == SubscriptionCleanup <==>
            r.phase == Running
            && (r.enablement.Some?
                || (r.link.Some? && r.link.value.step in {TargetAuthorized, StopAuthorized})
                || (r.repair.Some? && r.repair.value.step == RepairPrepared)))
      && (report == Historical <==> r.migration)
      && (report == RemovalReport <==> r.phase == RemovalCommitted)
      && (report == FinishSetupReport <==> r.phase in {ActivationCommitted, ServiceEnabled, ServiceStarted})
      && (report == RunningReport <==>
            r.phase == Running && !r.migration
            && r.enablement.None? && r.link.None? && r.repair.None? && r.rotation.None?)
      && report != Absent && report != Refused
  {
    ReportIsTold(r);
    hide Resources, SchemaShape, Inspect;
  }

  /** Every transition a publication may ask for. */
  predicate Permits(source: Option<Record>, next: Record) {
    match source
    case Some(s) => PermitsSuccessor(s, next) || PermitsIdentity(s, next) || PermitsRemoval(source, next)
    case None => (next.phase == OwnershipRecorded && next.cleanup == 0) || PermitsRemoval(None, next)
  }

  // ----- Barrier steps ----------------------------------------------------------

  /** The steps that commit: activation, each operation's start and commitment, revocation, removal. */
  predicate Barrier(a: Record, b: Record) {
    || (a.phase == ServiceUnmasked && b.phase == ActivationCommitted)
    || (a.enablement.None? && b.enablement.Some?)
    || (a.enablement.Some? && b.enablement.None? && b.serving.Some?)
    || (a.link.None? && b.link.Some?)
    || (a.link.Some? && b.link.Some? && a.link.value.step != LinkCommitted && b.link.value.step == LinkCommitted)
    || (a.repair.None? && b.repair.Some?)
    || (a.repair.Some? && b.repair.Some? && a.repair.value.step == RepairPrepared
        && b.repair.value.step != RepairPrepared)
    || (a.rotation.None? && b.rotation.Some?)
    || (a.rotation.Some? && b.rotation.Some? && a.rotation.value.checkpoint.Index() < 8
        && b.rotation.value.checkpoint.Index() >= 8)
    || (a.direction != Removal && b.direction == Removal)
  }

  /** Staging crosses exactly at the barrier steps. */
  predicate Agrees(a: Record, b: Record) { Crosses(a, b) <==> Barrier(a, b) }

  lemma SetupAgrees(a: Record, b: Record)
    requires Valid(a) && (NextSetup(a) == Ok(b) || NextCleanup(a) == Ok(b))
    ensures Agrees(a, b) && b.direction != Removal
  {
    hide Resources;
  }

  /** A transition with recomputed resources changes no other field. */
  lemma Recomputed(prior: Record, next: Record, b: Record)
    requires WithResources(prior, next) == Ok(b)
    ensures Valid(b) && b == next.(resources := b.resources, creators := b.creators)
  {
  }

  lemma EnablementAgrees(a: Record, b: Record)
    requires Valid(a)
    requires
      || (b.enablement.Some? && BeginEnablement(a, b.enablement.value) == Ok(b))
      || AdvanceEnablement(a) == Ok(b) || CommitEnablement(a) == Ok(b) || CleanupEnablement(a) == Ok(b)
    ensures Agrees(a, b) && b.direction != Removal
  {
    hide WithResources, Resources, ProgressShape;
    if b.enablement.Some? && BeginEnablement(a, b.enablement.value) == Ok(b) {
      Recomputed(a, a.(schema := 2, enablement := b.enablement), b);
    } else if AdvanceEnablement(a) == Ok(b) {
      var e := a.enablement.value;
      var c := NextEnablementCheckpoint(e.checkpoint).value;
      var serving := if c >= 8 then Some(Serving(e.link, e.credential)) else e.serving;
      Recomputed(a, a.(enablement := Some(e.(checkpoint := c, serving := serving))), b);
    } else if CommitEnablement(a) == Ok(b) {
      Recomputed(a, a.(serving := a.enablement.value.serving, subscription := Some(a.enablement.value.resources),
                       enablement := None), b);
    } else {
      Recomputed(a, a.(enablement := None), b);
    }
  }

  lemma LinkAdvanceAgrees(a: Record, b: Record)
    requires Valid(a) && AdvanceLink(a) == Ok(b)
    ensures Agrees(a, b) && b.direction != Removal
  {
    hide WithResources, Resources, ProgressShape;
    var v := a.link.value;
    if v.step == TargetAuthorized {
      Recomputed(a, a.(link := Some(v.(step := StopAuthorized, completed := 1))), b);
    } else {
      Recomputed(a, a.(link := Some(v.(step := LinkCommitted, direction := Forward, completed := 2)),
                       serving := Some(v.target)), b);
    }
  }

  lemma LinkAgrees(a: Record, b: Record)
    requires Valid(a)
    requires
      || (b.link.Some? && BeginLink(a, b.link.value) == Ok(b))
      || CleanupLink(a) == Ok(b) || CompleteLink(a) == Ok(b)
    ensures Agrees(a, b) && b.direction != Removal
  {
    hide WithResources, Resources, ProgressShape;
    if b.link.Some? && BeginLink(a, b.link.value) == Ok(b) {
      Recomputed(a, a.(link := b.link), b);
    } else if CleanupLink(a) == Ok(b) {
      Recomputed(a, a.(link := None), b);
    } else {
      Recomputed(a, a.(link := None, compromised := false), b);
    }
  }

  lemma RepairAgrees(a: Record, b: Record)
    requires Valid(a)
    requires
      || (b.repair.Some? && BeginRepair(a, b.repair.value) == Ok(b))
      || AdvanceRepair(a) == Ok(b) || CleanupRepair(a) == Ok(b) || CompleteRepair(a) == Ok(b)
    ensures Agrees(a, b) && b.direction != Removal
  {
    hide WithResources, Resources, ProgressShape, AdvanceRepair;
    if b.repair.Some? && BeginRepair(a, b.repair.value) == Ok(b) {
      Recomputed(a, a.(repair := b.repair), b);
    } else if AdvanceRepair(a) == Ok(b) {
      RepairAdvanceAgrees(a, b);
    } else {
      Recomputed(a, a.(repair := None), b);
    }
  }

  lemma RepairAdvanceAgrees(a: Record, b: Record)
    requires Valid(a) && AdvanceRepair(a) == Ok(b)
    ensures Agrees(a, b) && b.direction != Removal
  {
    hide WithResources, Resources, ProgressShape;
    var v := a.repair.value;
    if v.step == RepairPrepared {
      Recomputed(a, a.(repair := Some(v.(step := RepairCommitted, direction := Forward))), b);
    } else if v.target.None? {
      Recomputed(a, a.(repair := Some(v.(target := Some(v.source)))), b);
    } else {
      Recomputed(a, a.(repair := Some(v.(step := RepairAccepted, completed := true)), serving := v.target), b);
    }
  }

  lemma CompromisedAgrees(a: Record, b: Record)
    requires Valid(a) && MarkCompromised(a) == Ok(b)
    ensures Agrees(a, b) && b.direction != Removal
  {
    hide WithResources, Resources, ProgressShape;
    Recomputed(a, a.(compromised := true), b);
  }

  lemma HttpAgrees(a: Record, b: Record)
    requires Valid(a) && HttpSuccessor(a, b)
    ensures Agrees(a, b) && b.direction != Removal
  {
    hide Valid, Agrees, BeginEnablement, AdvanceEnablement, CommitEnablement, CleanupEnablement, BeginLink,
         AdvanceLink, CleanupLink, CompleteLink, BeginRepair, AdvanceRepair, CleanupRepair, CompleteRepair,
         MarkCompromised;
    if MarkCompromised(a) == Ok(b) {
      CompromisedAgrees(a, b);
    } else if (b.enablement.Some? && BeginEnablement(a, b.enablement.value) == Ok(b))
      || AdvanceEnablement(a) == Ok(b) || CommitEnablement(a) == Ok(b) || CleanupEnablement(a) == Ok(b) {
      EnablementAgrees(a, b);
    } else if AdvanceLink(a) == Ok(b) {
      LinkAdvanceAgrees(a, b);
    } else if (b.link.Some? && BeginLink(a, b.link.value) == Ok(b))
      || CleanupLink(a) == Ok(b) || CompleteLink(a) == Ok(b) {
      LinkAgrees(a, b);
    } else {
      RepairAgrees(a, b);
    }
  }

  // ----- Identity rotation and removal ------------------------------------------

  lemma OpeningAgrees(a: Record, operation: string, m: Material, startup: Startup, creator: Release)
    requires Valid(a) && BeginRecord(a, operation, m, startup, creator).Ok?
    ensures var b := BeginRecord(a, operation, m, startup, creator).value; Agrees(a, b) && b.direction != Removal
  {
    var b := BeginRecord(a, operation, m, startup, creator).value;
    OpeningKeepsPhase(a, operation, m, startup, creator);
    hide BeginRecord, Valid, PendingChange;
    IdentityHistory.BeginOpens(a, operation, m, startup, creator);
    RunningRotation(b);
    OpenedAgrees(a, b);
  }

  lemma OpeningKeepsPhase(a: Record, operation: string, m: Material, startup: Startup, creator: Release)
    requires Valid(a) && BeginRecord(a, operation, m, startup, creator).Ok?
    ensures var b := BeginRecord(a, operation, m, startup, creator).value;
      && b.direction == Idle && b.phase == Running && b.rotation.Some?
      && a.direction == Idle && a.phase == Running && PendingChange(a).None? && a.rotation.None?
  {
    BeginIsOpened(a, operation, m, startup, creator);
    hide BeginRecord, Valid, NewStartup, Staging;
  }

  lemma OpenedAgrees(a: Record, b: Record)
    requires a.direction == Idle && PendingChange(a).None? && a.rotation.None?
    requires b.direction == Idle && b.rotation.Some?
    requires PendingChange(b).Some? && PendingChange(b).value.IdentityPending?
    ensures Agrees(a, b)
  {
    hide PendingChange;
  }

  lemma AdvancingAgrees(a: Record, b: Record)
    requires Valid(a) && AdvanceRecord(a) == Ok(b)
    ensures Agrees(a, b) && b.direction != Removal
  {
    AdvanceKeepsPhase(a, b);
    hide AdvanceRecord, Valid;
    IdentityHistory.AdvancingShape(a, b);
    RunningRotation(a);
    RunningRotation(b);
    AdvancedAgrees(a, b);
  }

  lemma AdvancedAgrees(a: Record, b: Record)
    requires a.phase == b.phase == Running && a.direction == b.direction == Idle
    requires a.rotation.Some? && b.rotation.Some?
    requires a.enablement.None? && a.link.None? && a.repair.None?
    requires b.enablement.None? && b.link.None? && b.repair.None?
    requires PendingChange(a) == Some(IdentityPending(a.rotation.value.checkpoint.Direction()))
    requires PendingChange(b) == Some(IdentityPending(b.rotation.value.checkpoint.Direction()))
    requires b.rotation.value.checkpoint.Index() == a.rotation.value.checkpoint.Index() + 1
    ensures Agrees(a, b)
  {
    hide PendingChange;
  }

  lemma AdvanceKeepsPhase(a: Record, b: Record)
    requires AdvanceRecord(a) == Ok(b)
    ensures a.phase == b.phase == Running && a.direction == b.direction == Idle
  {
    hide Valid;
  }

  lemma RunningRotation(r: Record)
    requires Valid(r) && r.rotation.Some? && r.direction == Idle
    ensures PendingChange(r) == Some(IdentityPending(r.rotation.value.checkpoint.Direction()))
    ensures r.enablement.None? && r.link.None? && r.repair.None?
  {
    hide SchemaShape, ProgressShape, Resources;
  }

  lemma ClearingAgrees(a: Record, b: Record, retain: bool)
    requires Valid(a) && ClearRecord(a, retain) == Ok(b)
    ensures Agrees(a, b) && b.direction != Removal
  {
    hide SchemaShape, ProgressShape, Resources, KeepResources, KeepCreators, Removed;
  }

  lemma IdentityAgrees(a: Record, b: Record)
    requires Valid(a) && PermitsIdentity(a, b) && a != b
    ensures Agrees(a, b) && b.direction != Removal
  {
    hide Valid, Agrees, BeginRecord, ClearRecord, AdvanceRecord;
    if AdvanceRecord(a) == Ok(b) {
      AdvancingAgrees(a, b);
    } else if ClearRecord(a, true) == Ok(b) {
      ClearingAgrees(a, b, true);
    } else if ClearRecord(a, false) == Ok(b) {
      ClearingAgrees(a, b, false);
    } else {
      OpeningAgrees(a, b.rotation.value.operation, MaterialOf(b.rotation.value),
                    Integration(b.startup.value.directoryCreated), b.creators.value[|b.creators.value| - 1]);
    }
  }

  lemma OrdinaryAgrees(a: Record, b: Record)
    requires Valid(a) && (PermitsSuccessor(a, b) || PermitsIdentity(a, b))
    ensures Agrees(a, b) && (b.direction == Removal ==> a.direction == Removal)
  {
    hide Valid, NextSetup, NextCleanup, HttpSuccessor, InitialSuccessor, AdvanceRecord, ClearRecord;
    if a == b {
    } else if NextSetup(a) == Ok(b) || NextCleanup(a) == Ok(b) {
      SetupAgrees(a, b);
    } else if HttpSuccessor(a, b) {
      HttpAgrees(a, b);
    } else {
      IdentityAgrees(a, b);
    }
  }

  /** Committing or advancing a removal is reported as a removal. */
  lemma RemovalReported(a: Record, b: Record)
    requires Valid(a) && PermitsRemoval(Some(a), b)
    ensures b.direction == Removal && ReportOf(b) == RemovalReport
    ensures a.direction == Removal ==> ReportOf(a) == RemovalReport && Agrees(a, b)
  {
    hide Valid, CommitRemoval;
  }

  /**
   A complete stage of a permitted step is refused exactly at the barrier steps,
   and otherwise leaves the current record's own report in force.
   */
  lemma StagedStep(a: Record, b: Record)
    requires Valid(a) && Permits(Some(a), b)
    ensures Inspect(Some(a), Some(b)) == if Barrier(a, b) then Refused else Told(a)
  {
    ReportIsTold(a);
    hide Valid, PermitsSuccessor, PermitsIdentity, PermitsRemoval, Crosses, Barrier, ReportOf, Told;
    if PermitsSuccessor(a, b) || PermitsIdentity(a, b) {
      OrdinaryAgrees(a, b);
    } else {
      RemovalReported(a, b);
      if a.direction != Removal {
        CommitIsBarrier(a, b);
      }
    }
  }

  lemma CommitIsBarrier(a: Record, b: Record)
    requires a.direction != Removal && b.direction == Removal
    ensures Barrier(a, b)
  {
  }

  /** Every transition from a valid record gives a valid one. */
  lemma PermittedIsValid(a: Record, b: Record)
    requires Valid(a) && Permits(Some(a), b)
    ensures Valid(b)
  {
    if PermitsIdentity(a, b) {
      IdentityHistory.StepShape(a, b);
    } else if HttpSuccessor(a, b) {
      HttpIsValid(a, b);
    } else if PermitsRemoval(Some(a), b) {
      RemovalIsValid(a, b);
    }
    hide Valid, HttpSuccessor, PermitsIdentity, PermitsRemoval;
  }

  lemma RemovalIsValid(a: Record, b: Record)
    requires PermitsRemoval(Some(a), b)
    ensures Valid(b)
  {
    hide Valid;
  }

  lemma HttpIsValid(a: Record, b: Record)
    requires HttpSuccessor(a, b)
    ensures Valid(b)
  {
    hide Valid, Resources;
  }

  // ----- Every crash of a publication -------------------------------------------

  function LoadFile(au: Authority<Record>, content: Option<Bytes>): (result: Result<Option<Record>>) {
    match content
    case None => Ok(None)
    case Some(bytes) =>
      if !Readable(content) || au.decode(bytes).None? then Err else Ok(au.decode(bytes))
  }

  /** What reopening the store reports; an unreadable or undecodable file fails the load. */
  function Reopen(au: Authority<Record>, disk: Disk): (result: Result<Report>) {
    var current :- LoadFile(au, disk.current);
    var staged :- LoadFile(au, disk.staged);
    Ok(Inspect(current, staged))
  }

  /**
   Nothing but the old record could come back, beside any part of a stage of the new one:
   a settled record, or what a failed attempt at the same step left, synchronized or not.
   */
  ghost predicate StillBefore(fs: Fs, current: Bytes, next: Bytes)
    requires WellFormed(fs)
  {
    forall d :: Survives(fs, d) ==> d.current == Some(current) && (d.staged.None? || d.staged.value <= next)
  }

  lemma SettledIsBefore(fs: Fs, current: Bytes, next: Bytes)
    requires Settled(fs) && Visible(fs).current == Some(current)
    requires Visible(fs).staged.None? || Visible(fs).staged.value <= next
    ensures StillBefore(fs, current, next)
  {
    forall d | Survives(fs, d) ensures d == Visible(fs) {
      SettledLeaves(fs, next, d);
    }
  }

  /** An attempt after which the new record alone cannot yet come back leaves the next attempt where this one began. */
  lemma FailedAttemptIsBefore(before: Fs, fs: Fs, current: Bytes, next: Bytes)
    requires WellFormed(before) && StillBefore(before, current, next) && Contained(before, next, fs)
    requires !Survives(fs, Disk(Some(next), None))
    ensures StillBefore(fs, current, next)
  {
    forall d | Survives(fs, d) ensures d.current == Some(current) && (d.staged.None? || d.staged.value <= next) {
      assert MayLeave(before, next, d);
    }
  }

  lemma CrashInspects(au: Authority<Record>, trace: seq<Fs>, n: nat, before: Fs, a: Record, b: Record,
                      i: nat, disk: Disk)
    requires Lawful(au) && Valid(a) && Permits(Some(a), b) && au.encode(a).Some? && au.encode(b).Some?
    requires WellFormed(before) && StillBefore(before, au.encode(a).value, au.encode(b).value)
    requires ContainedSince(trace, n, before, au.encode(b).value)
    requires n <= i < |trace| && WellFormed(trace[i]) && Survives(trace[i], disk)
    ensures Reopen(au, disk).Ok? ==>
      Reopen(au, disk).value ==
        (if disk == Disk(au.encode(b), None) then ReportOf(b)
         else if disk.staged.Some? && Barrier(a, b) then Refused
         else ReportOf(a))
    ensures disk.staged in {None, au.encode(b)} ==> Reopen(au, disk).Ok?
    ensures disk == Disk(au.encode(b), None) || disk.current == au.encode(a)
  {
    hide Valid, Permits, Barrier, ReportOf, Crosses, Recognised;
    assert MayLeave(before, au.encode(b).value, disk);
    StagedStep(a, b);
    if disk == Disk(au.encode(b), None) {
    } else if disk.staged.Some? && disk.current == au.encode(b) {
      // Only possible when the step publishes the current record again.
      assert disk.current == au.encode(a);
      assert au.decode(au.encode(a).value) == Some(b);
    }
  }

  /**
   Main result: whatever a crash leaves while a permitted step is being published, for
   the first time or again after attempts that failed before the rename, reopening either
   fails or reports the old record's recovery, the new record's, or refuses. It refuses
   exactly when a readable stage of a barrier step is present without its rename.
   */
  lemma EveryCrashReports(au: Authority<Record>, trace: seq<Fs>, n: nat, before: Fs, a: Record, b: Record,
                          i: nat, disk: Disk)
    requires Lawful(au) && Valid(a) && Permits(Some(a), b) && au.encode(a).Some? && au.encode(b).Some?
    requires WellFormed(before) && StillBefore(before, au.encode(a).value, au.encode(b).value)
    requires ContainedSince(trace, n, before, au.encode(b).value)
    requires n <= i < |trace| && WellFormed(trace[i]) && Survives(trace[i], disk)
    ensures Reopen(au, disk).Ok? ==>
      Reopen(au, disk).value ==
        (if disk == Disk(au.encode(b), None) then Told(b)
         else if disk.staged.Some? && Barrier(a, b) then Refused
         else Told(a))
    ensures disk.staged in {None, au.encode(b)} ==> Reopen(au, disk).Ok?
    ensures disk == Disk(au.encode(b), None) || disk.current == au.encode(a)
  {
    hide *;
    CrashInspects(au, trace, n, before, a, b, i, disk);
    PermittedIsValid(a, b);
    ToldAlone(a);
    ToldAlone(b);
  }

  /** Publishing exactly the staged record again completes the interrupted step. */
  method Retry(store: OwnershipStore<Record>, a: Record, b: Record) returns (o: Outcome)
    requires store.Valid() && store.reliable
    requires store.authority.permits == Permits
    requires Permits(Some(a), b)
    requires store.authority.encode(a).Some? && store.authority.encode(b).Some?
    requires Visible(store.fs) == Disk(store.authority.encode(a), store.authority.encode(b))
    modifies store
    ensures store.Valid() && o.Done?
    ensures Visible(store.fs) == Disk(store.authority.encode(b), None)
    ensures Reopen(store.authority, Visible(store.fs)) == Ok(Inspect(Some(b), None))
    ensures Valid(a) ==> Inspect(Some(b), None) == Told(b)
  {
    if Valid(a) {
      PermittedIsValid(a, b);
      ReportIsTold(b);
    }
    hide Permits, ReportOf, Told, Valid;
    o := store.Publish(store.authority.encode(a), b);
  }

  /**
   A stage with nothing current beside it, as a power loss during a first publication
   leaves it, is refused. Only publishing exactly that record again gets past it, and
   a record whose cleanup is complete, staged alone, cannot be got past at all.
   */
  method PublishBesideLoneStage(store: OwnershipStore<Record>, staged: Record, next: Record) returns (o: Outcome)
    requires store.Valid() && store.authority.permits == Permits
    requires store.authority.encode(staged).Some?
    requires Visible(store.fs) == Disk(None, store.authority.encode(staged))
    modifies store
    ensures store.Valid()
    ensures o.Done? ==>
      next == staged && Permits(None, next) && Visible(store.fs).current == store.authority.encode(next)
    ensures next != staged || staged.cleanup == 8 ==>
      o.Failed? && o.publication == Unchanged && Visible(store.fs).current == None
    ensures store.reliable ==> (o.Done? <==> next == staged && Permits(None, next))
    ensures Inspect(None, Some(staged)) == Refused
  {
    hide ReportOf;
    if next != staged {
      Distinct(store.authority, staged, next);
    } else if Permits(None, next) {
      FirstIsNotCleaned(next);
    }
    hide Permits;
    o := store.Publish(None, next);
  }

  lemma Distinct(au: Authority<Record>, a: Record, b: Record)
    requires Lawful(au) && a != b && au.encode(a).Some?
    ensures au.encode(a) != au.encode(b)
  {
    assert au.decode(au.encode(a).value) == Some(a);
  }

  lemma FirstIsNotCleaned(next: Record)
    requires Permits(None, next)
    ensures next.cleanup == 0
  {
    hide Resources, OperationShape;
  }
}
