/**
 Which configuration may start, decided from the Ownership Record alone.

 These decisions select no recovery direction. Together with the rotation they
 keep the two client credentials apart: the ordinary start routes accept only
 checkpoints before the gate, and the gated route only the recorded side.
 */
module RuntimeHandoff {
  import opened Wrappers
  import opened Records

  predicate Ordinary(c: Checkpoint) { c.Index() <= 4 }

  /** The gated configuration, or none when an ordinary start is enough. */
  function CutoverConfiguration(r: Record): (result: Result<Option<string>>) {
    if r.phase != Running || r.direction != Idle || r.migration then Err
    else
      match r.rotation
      case None => Ok(None)
      case Some(v) =>
        var selected := if Ordinary(v.checkpoint) || v.direction != Forward then v.source else v.target;
        if selected != r.config then Err
        else Ok(if Ordinary(v.checkpoint) then None else Some(selected))
  }

  /** The serving authority a subscription process may adopt. */
  function SelectHttpAuthority(r: Record, borrowed: bool): (result: Result<Serving>) {
    if r.phase != Running || r.direction != Idle || (!borrowed && (r.migration || r.link.Some?)) then Err
    else if r.rotation.Some? && RotationRefuses(r.rotation.value, r.config, borrowed) then Err
    else if r.repair.Some? && r.repair.value.step != RepairPrepared && r.repair.value.target.None? then Err
    else if r.serving.None? && (r.enablement.None? || r.enablement.value.serving.None?) then Err
    else if r.repair.Some? && r.repair.value.target.Some? then Ok(r.repair.value.target.value)
    else if r.serving.Some? then Ok(r.serving.value)
    else Ok(r.enablement.value.serving.value)
  }

  predicate RotationRefuses(v: Rotation, config: string, borrowed: bool) {
    || (!Ordinary(v.checkpoint) && !borrowed)
    || v.subscription.None?
    || (if v.checkpoint.Index() >= 8 then v.target else v.source) != config
  }

  /** The start condition of the proxy service, evaluated on every start by systemd. */
  predicate AuthorizesProxyStart(r: Record, file: string, effective: bool, borrowed: bool, mutating: bool,
                                 gate: Option<string>)
  {
    && r.phase == Running && r.direction == Idle && !r.migration && r.startup.Some?
    && effective
    && file == r.config
    && CutoverConfiguration(r).Ok?
    && (CutoverConfiguration(r).value.Some? ==> borrowed && mutating && gate == CutoverConfiguration(r).value)
  }

  /** The one start permitted during initial tunnel setup. */
  function SetupStartConfiguration(r: Record): (result: Result<string>) {
    if r.schema != 1 || r.phase != ServiceEnabled || r.direction != FinishSetup || r.tunnel.None?
       || PendingChange(r).Some? || !r.lockUnit
    then Err
    else Ok(r.config)
  }

  // ----- Properties ------------------------------------------------------------

  /**
   With an open rotation, the start routes agree with the checkpoint: ordinary
   before the gate, one exact gated configuration after it, and nothing at all
   once the source is revoked and the target not yet selected.
   */
  lemma CutoverFollowsCheckpoint(r: Record)
    requires Valid(r) && r.rotation.Some? && r.phase == Running
    ensures var v := r.rotation.value;
      CutoverConfiguration(r) ==
        if v.checkpoint.Index() <= 4 then Ok(None)
        else if v.checkpoint.Index() < 8 then Ok(Some(v.source))
        else if v.checkpoint.Index() == 8 then Err
        else Ok(Some(v.target))
  {
    hide Resources;
  }

  lemma ServingFollowsCheckpoint(r: Record, borrowed: bool)
    requires Valid(r) && r.rotation.Some? && r.phase == Running
    ensures var v := r.rotation.value;
      SelectHttpAuthority(r, borrowed).Ok? <==>
        r.serving.Some? && v.checkpoint != Revoked && (borrowed || v.checkpoint.Index() <= 4)
    ensures SelectHttpAuthority(r, borrowed).Ok? ==> SelectHttpAuthority(r, borrowed) == Ok(r.serving.value)
  {
    hide Resources;
  }

  /**
   When the proxy may start under a valid record: running, out of migration, through its own start
   condition, with the recorded file; from the gate on only by the owner's own one-use token, and
   not at all at revocation.
   */
  lemma StartIsGranted(r: Record, file: string, effective: bool, borrowed: bool, mutating: bool, gate: Option<string>)
    requires Valid(r)
    ensures AuthorizesProxyStart(r, file, effective, borrowed, mutating, gate) <==>
      && r.phase == Running && !r.migration && r.startup.Some? && effective && file == r.config
      && (r.rotation.Some? ==>
            match r.rotation.value.checkpoint
            case Authorized => true
            case TargetPrepared => true
            case IntegrationPublished => true
            case Reloaded => true
            case RouteVerified => true
            case Revoked => false
            case _ => borrowed && mutating && gate == Some(file))
  {
    if r.rotation.Some? && r.phase == Running {
      CutoverFollowsCheckpoint(r);
      SelectedSide(r);
    }
    RunningIsIdle(r);
    hide Valid;
  }

  lemma SelectedSide(r: Record)
    requires Valid(r) && r.rotation.Some?
    ensures var v := r.rotation.value; r.config == (if v.checkpoint.Index() >= 9 then v.target else v.source)
    ensures r.phase == Running ==> !r.migration
  {
    hide Resources, SchemaShape, ProgressShape;
  }

  lemma RunningIsIdle(r: Record)
    requires Valid(r)
    ensures r.phase == Running ==> r.direction == Idle
  {
    hide Resources, SchemaShape, OperationShape;
  }

  /**
   When a subscription may be served under a valid record, and with which authority: the recorded
   one, or the one an enablement has recorded so far; not at a revocation or in a repair that has
   committed no target yet; and, but for the owner, not past a gate, under a link change or a migration.
   */
  lemma ServingIsGranted(r: Record, borrowed: bool)
    requires Valid(r)
    ensures SelectHttpAuthority(r, borrowed).Ok? <==>
      && r.phase == Running
      && (r.serving.Some? || (r.enablement.Some? && r.enablement.value.serving.Some?))
      && (r.rotation.Some? ==>
            r.rotation.value.checkpoint != Revoked && (borrowed || r.rotation.value.checkpoint.Index() <= 4))
      && (r.repair.Some? ==> r.repair.value.step != RepairCommitted || r.repair.value.target.Some?)
      && (borrowed || (r.link.None? && !r.migration))
    ensures SelectHttpAuthority(r, borrowed).Ok? ==>
      SelectHttpAuthority(r, borrowed).value ==
        if r.serving.Some? then r.serving.value else r.enablement.value.serving.value
  {
    RunningIsIdle(r);
    if r.rotation.Some? && r.phase == Running {
      ServingFollowsCheckpoint(r, borrowed);
      hide Valid, SelectHttpAuthority;
      RotationAlone(r);
    } else {
      RepairKeepsServing(r);
      hide Valid, RotationRefuses;
    }
  }

  lemma RotationAlone(r: Record)
    requires Valid(r) && r.rotation.Some? && r.phase == Running
    ensures r.link.None? && r.repair.None? && r.enablement.None? && !r.migration
  {
    hide Resources, SchemaShape, ProgressShape;
  }

  lemma RepairKeepsServing(r: Record)
    requires Valid(r)
    ensures r.repair.Some? ==>
      && r.enablement.None? && r.serving.Some?
      && (r.repair.value.target.Some? ==> r.repair.value.target == r.serving)
      && (r.repair.value.step == RepairAccepted ==> r.repair.value.target.Some?)
    ensures r.migration ==> r.phase == Running && r.rotation.None?
    ensures r.rotation.Some? ==> r.phase == Running || r.phase == RemovalCommitted
  {
    hide Resources, SchemaShape, ProgressShape;
  }

  /** The setup start is granted exactly to a tunnel setup whose proxy is recorded as enabled and not as started. */
  lemma SetupStartIsGranted(r: Record)
    requires Valid(r)
    ensures SetupStartConfiguration(r) ==
      if r.phase == ServiceEnabled && r.tunnel.Some? then Ok(r.config) else Err
  {
    hide Resources;
  }

  /** The setup start and the running start routes never apply to one record. */
  lemma SetupStartIsSeparate(r: Record)
    requires Valid(r) && SetupStartConfiguration(r).Ok?
    ensures CutoverConfiguration(r).Err? && r.rotation.None?
    ensures forall borrowed :: SelectHttpAuthority(r, borrowed).Err?
    ensures forall file, effective, borrowed, mutating, gate ::
      !AuthorizesProxyStart(r, file, effective, borrowed, mutating, gate)
  {
  }

  /**
   No start of any kind uses a configuration other than the recorded one, and at
   revocation there is no start of any kind.
   */
  lemma StartsUseRecordedSide(r: Record, file: string, effective: bool, borrowed: bool, mutating: bool,
                              gate: Option<string>)
    requires Valid(r) && r.rotation.Some?
    requires AuthorizesProxyStart(r, file, effective, borrowed, mutating, gate)
    ensures var v := r.rotation.value;
      && v.checkpoint != Revoked
      && file == (if v.checkpoint.Index() < 8 then v.source else v.target)
      && (v.checkpoint.Index() > 4 ==> borrowed && mutating && gate == Some(file))
  {
    CutoverFollowsCheckpoint(r);
    hide Resources, SchemaShape, ProgressShape, CutoverConfiguration;
  }
}
