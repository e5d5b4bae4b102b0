/**
 Forward-only complete removal: review, execute, and the finishing sequence that
 every later run repeats from the recorded checkpoint.
 */
module Removal {
  import opened Wrappers
  import opened Records
  import opened RemovalPlan
  import opened RemovalHost

  datatype Action = Complete | Finish

  datatype Outcome = Completed | Declined | Refused | NeedsCompletion | FinalSynchronizationUnknown

  /** The single-use review token is the epoch in which it was issued. */
  datatype Prepared = Prepared(owner: nat, action: Action, snapshot: Authority, release: Release)

  /** The selected authority of a committed removal is the one that is shown. */
  ghost predicate Selects(h: Host, s: Selection)
    reads h
  {
    && h.Valid() && Selected(h.w.shown) == Ok(Some(s)) && Valid(s.record) && s.record.direction == Removal
    && Earned(s.record, h.w.present, h.log)
  }

  /** And it is durable. */
  ghost predicate Tracks(h: Host, s: Selection)
    reads h
  {
    Selects(h, s) && Binding(h.w)
  }

  /** Nothing but the given effect was removed, and the authority did not move. */
  predicate Only(before: World, after: World, e: Effect) {
    && after.shown == before.shown
    && after.present <= before.present && before.present - {e} <= after.present
  }

  lemma SelectionIsValid(h: Host)
    requires h.Valid() && Selected(h.w.shown).Ok? && Selected(h.w.shown).value.Some?
    ensures var r := Selected(h.w.shown).value.value.record;
      Valid(r) && (r.direction == Removal ==> Earned(r, h.w.present, h.log))
  {
    hide Valid, Earned, Orderly;
  }

  lemma LogGrows(h: Host, before: set<Effect>, log: seq<Event>, r: Record)
    requires Earned(r, before, log) && log <= h.log && h.w.present <= before
    ensures Earned(r, h.w.present, h.log)
  {
    EarnedKept(r, before, h.w.present, log, h.log[|log|..]);
    assert log + h.log[|log|..] == h.log;
  }

  /** The record is what the authority files select. */
  predicate Authorizes(a: Authority, r: Record) {
    Selected(a).Ok? && Selected(a).value.Some? && Selected(a).value.value.record == r
  }

  // ----- One effect, one checkpoint --------------------------------------------------

  /** Proves an effect absent, applying it first if its resources are still owned. */
  method Perform(h: Host, e: Effect, r: Record) returns (ok: bool)
    requires h.Valid() && r.direction == Removal && Planned(r, e) && Binding(h.w)
    modifies h
    ensures h.Valid() && old(h.log) <= h.log && Only(old(h.w), h.w, e)
    ensures h.w.alternatives == old(h.w.alternatives)
    ensures ok ==> e !in h.w.present && Observed(e) in h.log
    ensures h.reliable && Authorizes(old(h.w.shown), r) ==> ok
  {
    hide Host.Valid, Planned, Selected;
    var a := h.ReadAuthority();
    if a.Err? || !Authorizes(a.value, r) {
      return false;
    }
    var absent := h.InspectEffect(e, r);
    if absent.Err? {
      return false;
    }
    if absent.value {
      return true;
    }
    ok := h.Apply(e, r);
    if !ok {
      return;
    }
    absent := h.InspectEffect(e, r);
    ok := absent == Ok(true);
  }

  /** Publishes and believes only what is read back and synchronized. */
  method PublishVerified(h: Host, expected: Option<Record>, target: Record) returns (ok: bool)
    requires h.Valid() && PermitsRemoval(expected, target)
    requires Valid(target) && Earned(target, h.w.present, h.log)
    requires h.w.shown.finalizer.None?
    requires expected != Some(target)
    requires expected.Some? ==> h.w.shown.current == Some(Canonical(expected.value))
    requires expected.None? ==> h.w.shown.current.None?
    modifies h
    ensures h.Valid() && old(h.log) <= h.log && h.w.present == old(h.w.present)
    ensures Binding(old(h.w)) ==> Binding(h.w)
    ensures ok ==>
      && h.w.shown == Authority(Some(Canonical(target)), None, None)
      && old(h.w.shown.staged) in {None, Some(Canonical(target))}
    ensures h.reliable && old(h.w.shown.staged) in {None, Some(Canonical(target))} ==> ok
  {
    hide Host.Valid, Valid, Earned, PermitsRemoval, Selected;
    h.Publish(expected, target);
    var a := h.ReadAuthority();
    SelectedAlone(target);
    if a.Err? || Selected(a.value).Err? || Selected(a.value).value != Some(Selection(target, AtCurrent)) {
      return false;
    }
    SelectedCurrent(a.value, target);
    ok := h.Synchronize(AtCurrent, target);
  }

  lemma SelectedAlone(r: Record)
    ensures Selected(Authority(Some(Canonical(r)), None, None)) == Ok(Some(Selection(r, AtCurrent)))
  {
  }

  lemma SelectedCurrent(a: Authority, r: Record)
    requires Selected(a) == Ok(Some(Selection(r, AtCurrent)))
    ensures a.current == Some(Canonical(r)) && a.finalizer.None?
  {
  }

  /** The publication an unfinished run left in the way of the next one, if any, is that next one. */
  predicate Resumable(a: Authority, r: Record) {
    || a.staged.None?
    || (NextRemoval(r).Ok? && a.staged == Some(Canonical(NextRemoval(r).value)))
    || (r.removal == Limit(r) && a.staged == Some(Canonical(r)))
  }

  method Advance(h: Host, s: Selection) returns (next: Result<Selection>)
    requires Tracks(h, s) && s.record.removal < Limit(s.record)
    requires Earned(s.record.(removal := s.record.removal + 1), h.w.present, h.log)
    modifies h
    ensures h.Valid() && old(h.log) <= h.log && h.w.present == old(h.w.present)
    ensures next.Ok? ==>
      && next.value == Selection(s.record.(removal := s.record.removal + 1), AtCurrent)
      && Tracks(h, next.value) && h.w.shown.staged.None?
      && Limit(next.value.record) == Limit(s.record)
      && AuxiliaryEffects(next.value.record) == AuxiliaryEffects(s.record)
      && FinishingRelease(next.value.record) == FinishingRelease(s.record)
      && Resumable(old(h.w.shown), s.record)
    ensures h.reliable && Resumable(old(h.w.shown), s.record) ==> next.Ok?
  {
    hide Host.Valid, Valid;
    NextAdvances(s.record);
    UnfinishedIsCurrent(h.w.shown, s);
    hide Earned, Selected;
    var r := NextRemoval(s.record);
    if r.Err? {
      return Err;
    }
    NextPermitted(s.record, r.value);
    hide PermitsRemoval, NextRemoval, Limit, FinishingRelease, AuxiliaryEffects;
    ghost var log := h.log;
    var ok := PublishVerified(h, Some(s.record), r.value);
    if !ok {
      return Err;
    }
    LogGrows(h, h.w.present, log, r.value);
    SelectedAlone(r.value);
    next := Ok(Selection(r.value, AtCurrent));
  }

  /** Below its limit an authority can only be the current record. */
  lemma UnfinishedIsCurrent(a: Authority, s: Selection)
    requires Selected(a) == Ok(Some(s)) && s.record.direction == Removal && s.record.removal < Limit(s.record)
    ensures s.location == AtCurrent && a.current == Some(Canonical(s.record)) && a.finalizer.None?
  {
  }

  lemma NextPermitted(r: Record, n: Record)
    requires Valid(r) && r.direction == Removal && NextRemoval(r) == Ok(n)
    ensures PermitsRemoval(Some(r), n)
  {
    NextAdvances(r);
    FinisherKnown(r);
    hide Valid;
  }

  lemma FinisherKnown(r: Record)
    requires Valid(r) && r.direction == Removal
    ensures FinishingRelease(r).Ok?
  {
    hide Resources, OperationShape;
  }

  // ----- The finishing sequence -------------------------------------------------------

  /** A later checkpoint of the same committed removal. */
  predicate Continues(a: Record, b: Record) { b == a.(removal := b.removal) && a.removal <= b.removal }

  lemma ContinuesKeeps(a: Record, b: Record)
    requires Continues(a, b)
    ensures Limit(b) == Limit(a) && AuxiliaryEffects(b) == AuxiliaryEffects(a)
    ensures forall e :: Planned(b, e) <==> Planned(a, e)
    ensures forall e :: ProxySide(b, e) <==> ProxySide(a, e)
  {
    hide Valid;
    assert TunnelEffects(b) == TunnelEffects(a) && RotationEffects(b) == RotationEffects(a);
  }

  ghost predicate AuxiliaryAbsent(r: Record, present: set<Effect>) {
    forall e :: e in AuxiliaryEffects(r) ==> e !in present
  }

  /** What may be gone after part of a run. */
  predicate Fewer(before: World, after: World) {
    && after.shown == before.shown && after.present <= before.present
    && after.alternatives <= before.alternatives
  }

  lemma StillTracks(h: Host, s: Selection, before: World, log: seq<Event>)
    requires h.Valid() && log <= h.log && Fewer(before, h.w)
    requires Selected(before.shown) == Ok(Some(s)) && Valid(s.record) && s.record.direction == Removal
    requires Earned(s.record, before.present, log)
    requires Binding(before)
    ensures Tracks(h, s)
  {
    hide Valid, Host.Valid, Selected;
    LogGrows(h, before.present, log, s.record);
  }

  /** Proves one planned effect absent without losing track of the authority. */
  method Ensure(h: Host, s: Selection, e: Effect) returns (ok: bool)
    requires Tracks(h, s) && Planned(s.record, e)
    modifies h
    ensures Tracks(h, s) && Fewer(old(h.w), h.w) && Only(old(h.w), h.w, e) && old(h.log) <= h.log
    ensures ok ==> e !in h.w.present && Observed(e) in h.log
    ensures h.reliable ==> ok
  {
    hide Host.Valid, Valid, Earned, Selected, Planned;
    ghost var before, log := h.w, h.log;
    ok := Perform(h, e, s.record);
    StillTracks(h, s, before, log);
  }

  /** A synchronized commitment cannot be lost: what may still come back is a finalizer. */
  lemma SynchronizedBinds(h: Host, s: Selection)
    requires Selects(h, s) && forall a :: a in h.w.alternatives ==> a.finalizer.Some?
    ensures Binding(h.w)
  {
    hide Valid, Earned, Orderly;
    forall a | a in h.w.alternatives ensures Committed(a) {
      assert Trusted(a, h.w.present, h.log);
    }
  }

  method RemoveAuxiliary(h: Host, s: Selection) returns (ok: bool)
    requires Tracks(h, s)
    modifies h
    ensures Tracks(h, s) && Fewer(old(h.w), h.w) && old(h.log) <= h.log
    ensures ok ==> AuxiliaryAbsent(s.record, h.w.present)
    ensures ok ==> forall e :: Called(s.record, e) ==> e !in h.w.present
    ensures forall e :: e in old(h.w.present) && e !in AuxiliaryEffects(s.record) ==> e in h.w.present
    ensures h.reliable ==> ok
  {
    hide Tracks, AuxiliaryEffects, Called;
    forall e ensures e in AuxiliaryEffects(s.record) <==> Called(s.record, e) {
      CalledExactly(s.record, e);
    }
    var effects := AuxiliaryEffects(s.record);
    for i := 0 to |effects|
      invariant Tracks(h, s) && Fewer(old(h.w), h.w) && old(h.log) <= h.log
      invariant forall j :: 0 <= j < i ==> effects[j] !in h.w.present
      invariant forall e :: e in old(h.w.present) && e !in effects ==> e in h.w.present
    {
      assert Planned(s.record, effects[i]);
      ok := Ensure(h, s, effects[i]);
      if !ok {
        return;
      }
      ok := h.Call();
      if !ok {
        return;
      }
    }
    ok := true;
  }

  lemma EarnedByEffect(r: Record, present: set<Effect>, log: seq<Event>)
    requires Earned(r, present, log) && r.removal < ProxyCount(r) && AuxiliaryAbsent(r, present)
    requires r.removal < 8 && PROXY_EFFECTS[r.removal] !in present && Observed(PROXY_EFFECTS[r.removal]) in log
    requires r.removal > 0 && r.startup.Some? ==> ProxyStartup !in present
    ensures Earned(r.(removal := r.removal + 1), present, log)
  {
    var n := r.(removal := r.removal + 1);
    ContinuesKeeps(r, n);
    hide AuxiliaryEffects;
  }

  lemma EarnedByAbsence(r: Record, present: set<Effect>, log: seq<Event>)
    requires Earned(r, present, log) && r.removal == ProxyCount(r)
    requires ProxyAbsent(r, present) && Cleared in log
    ensures Earned(r.(removal := r.removal + 1), present, log)
  {
    var n := r.(removal := r.removal + 1);
    ContinuesKeeps(r, n);
    hide AuxiliaryEffects;
  }

  lemma EarnedByProduct(r: Record, present: set<Effect>, log: seq<Event>)
    requires Earned(r, present, log)
    requires || (r.removal == ProxyCount(r) + 1 && Observed(Executable) in log)
             || (r.removal == ProxyCount(r) + 2 && Observed(InstalledRecord) in log)
    ensures Earned(r.(removal := r.removal + 1), present, log)
  {
    var n := r.(removal := r.removal + 1);
    ContinuesKeeps(r, n);
    hide AuxiliaryEffects;
  }

  predicate StartupPending(r: Record, present: set<Effect>) { r.startup.Some? && ProxyStartup in present }

  /** One proxy checkpoint: the effect, the record, and after the first the startup integration. */
  method ProxyStep(h: Host, s: Selection, index: nat) returns (next: Result<Selection>)
    requires Tracks(h, s) && AuxiliaryAbsent(s.record, h.w.present)
    requires s.record.removal == index < ProxyCount(s.record)
    requires index > 0 ==> !StartupPending(s.record, h.w.present)
    modifies h
    ensures h.Valid() && old(h.log) <= h.log && h.w.present <= old(h.w.present)
    ensures next.Ok? ==>
      && Tracks(h, next.value) && Continues(s.record, next.value.record) && next.value.record.removal == index + 1
      && h.w.shown.staged.None?
      && !StartupPending(s.record, h.w.present)
      && Resumable(old(h.w.shown), s.record)
    ensures h.reliable && Resumable(old(h.w.shown), s.record) ==> next.Ok?
  {
    hide Valid, Selected, Host.Valid;
    assert s.record.package && Planned(s.record, PROXY_EFFECTS[index]);
    hide AuxiliaryEffects, Planned;
    var ok := Ensure(h, s, PROXY_EFFECTS[index]);
    if !ok {
      return Err;
    }
    EarnedByEffect(s.record, h.w.present, h.log);
    hide Earned;
    next := Advance(h, s);
    if next.Err? {
      return;
    }
    if index == 0 && s.record.startup.Some? {
      StartupPlanned(next.value.record);
      ok := Ensure(h, next.value, ProxyStartup);
      if !ok {
        return Err;
      }
    }
    ok := h.Call();
    if !ok {
      return Err;
    }
  }

  lemma StartupPlanned(r: Record)
    ensures r.startup.Some? ==> Planned(r, ProxyStartup)
  {
    hide AuxiliaryEffects;
  }

  /** Either nothing was published, or what stood in the way of the first publication was that publication. */
  predicate Moved(before: Authority, start: Selection, after: Authority, s: Selection) {
    Resumable(before, start.record) || (after == before && s == start)
  }

  lemma MovedOn(a: Authority, r: Selection, b: Authority, s: Selection, c: Authority, t: Selection)
    requires Moved(a, r, b, s) && Moved(b, s, c, t)
    ensures Moved(a, r, c, t)
  {
  }

  /** All proxy checkpoints still ahead. */
  method RemoveProxy(h: Host, start: Selection) returns (r: Result<Selection>)
    requires Tracks(h, start) && AuxiliaryAbsent(start.record, h.w.present)
    modifies h
    ensures h.Valid() && old(h.log) <= h.log && h.w.present <= old(h.w.present)
    ensures r.Ok? ==>
      && Tracks(h, r.value) && Continues(start.record, r.value.record)
      && r.value.record.removal >= ProxyCount(start.record)
      && (r.value.record.removal > 0 ==> !StartupPending(start.record, h.w.present))
      && Moved(old(h.w.shown), start, h.w.shown, r.value)
    ensures start.record.removal == ProxyCount(start.record) == 0 ==> h.w.present == old(h.w.present)
    ensures h.reliable && Resumable(old(h.w.shown), start.record) ==>
      r.Ok? && Resumable(h.w.shown, r.value.record)
  {
    hide Tracks, Resumable, AuxiliaryEffects, Planned;
    var s := start;
    if s.record.startup.Some? && s.record.removal > 0 {
      StartupPlanned(s.record);
      var ok := Ensure(h, s, ProxyStartup);
      if !ok {
        TracksValid(h, s);
        return Err;
      }
    }
    for index := 0 to ProxyCount(start.record)
      invariant Tracks(h, s) && Continues(start.record, s.record) && old(h.log) <= h.log
      invariant s.record.removal >= index && h.w.present <= old(h.w.present)
      invariant s.record.removal > 0 ==> !StartupPending(start.record, h.w.present)
      invariant Moved(old(h.w.shown), start, h.w.shown, s)
      invariant start.record.removal == ProxyCount(start.record) == 0 ==> h.w.present == old(h.w.present)
      invariant h.reliable && Resumable(old(h.w.shown), start.record) ==> Resumable(h.w.shown, s.record)
    {
      if s.record.removal > index {
        continue;
      }
      ContinuesKeeps(start.record, s.record);
      var next := ProxyStep(h, s, index);
      if next.Err? {
        return Err;
      }
      s := next.value;
      UnstagedResumes(h.w.shown, s.record);
    }
    TracksValid(h, s);
    return Ok(s);
  }

  lemma UnstagedResumes(a: Authority, r: Record)
    ensures a.staged.None? ==> Resumable(a, r)
  {
  }

  lemma TracksValid(h: Host, s: Selection)
    requires Tracks(h, s)
    ensures h.Valid()
  {
  }

  /** The checkpoint that stands for the whole proxy side. */
  method ConfirmProxyAbsent(h: Host, s: Selection) returns (r: Result<Selection>)
    requires Tracks(h, s) && s.record.removal >= ProxyCount(s.record)
    modifies h
    ensures h.Valid() && old(h.log) <= h.log && h.w.present == old(h.w.present)
    ensures r.Ok? ==>
      && Tracks(h, r.value) && Continues(s.record, r.value.record)
      && r.value.record.removal > ProxyCount(s.record)
      && Moved(old(h.w.shown), s, h.w.shown, r.value)
      && (s.record.removal == ProxyCount(s.record) ==> ProxyAbsent(s.record, h.w.present))
    ensures h.reliable && Resumable(old(h.w.shown), s.record) && ProxyAbsent(s.record, h.w.present) ==>
      r.Ok? && Resumable(h.w.shown, r.value.record)
  {
    hide Valid, Selected, Resumable;
    if s.record.removal > ProxyCount(s.record) {
      return Ok(s);
    }
    hide AuxiliaryEffects, ProxySide, Host.Valid;
    ghost var before, log := h.w, h.log;
    var ok := h.ObserveProxyAbsent(s.record);
    if !ok {
      return Err;
    }
    StillTracks(h, s, before, log);
    EarnedByAbsence(s.record, h.w.present, h.log);
    hide Earned, ProxyAbsent;
    r := Advance(h, s);
    if r.Ok? {
      UnstagedResumes(h.w.shown, r.value.record);
    }
  }

  predicate Product(e: Effect, r: Record, limit: nat) {
    || (e == Executable && limit == ProxyCount(r) + 1)
    || (e == InstalledRecord && limit == ProxyCount(r) + 2)
  }

  /** A product member goes whether or not its checkpoint was reached: it may have been restored. */
  method RemoveMember(h: Host, s: Selection, e: Effect, seen: bool, limit: nat) returns (r: Result<Selection>)
    requires Tracks(h, s) && Product(e, s.record, limit) && s.record.removal >= limit
    requires !seen ==> e !in h.w.present
    modifies h
    ensures h.Valid() && old(h.log) <= h.log && h.w.present <= old(h.w.present)
    ensures r.Ok? ==>
      && Tracks(h, r.value) && Continues(s.record, r.value.record)
      && r.value.record.removal > limit && e !in h.w.present
      && Moved(old(h.w.shown), s, h.w.shown, r.value)
    ensures h.reliable && Resumable(old(h.w.shown), s.record) ==>
      r.Ok? && Resumable(h.w.shown, r.value.record)
  {
    hide Valid, Selected, Host.Valid, Resumable, AuxiliaryEffects;
    if seen || s.record.removal <= limit {
      var ok := Ensure(h, s, e);
      if !ok {
        return Err;
      }
    }
    if s.record.removal <= limit {
      EarnedByProduct(s.record, h.w.present, h.log);
      hide Earned;
      r := Advance(h, s);
      if r.Err? {
        return;
      }
      UnstagedResumes(h.w.shown, r.value.record);
    } else {
      r := Ok(s);
    }
    var ok := h.Call();
    if !ok {
      return Err;
    }
  }

  /** Nothing of the record's plan is left, and nothing it owns. */
  ghost predicate AllAbsent(r: Record, present: set<Effect>) {
    (forall e :: Planned(r, e) ==> e !in present) && Gone(r.resources, present)
  }

  /** The record has left its place: only its finalizer can still be there. */
  predicate Finalizing(a: Authority) { a == NOTHING || a.finalizer.Some? }

  /** Both product members, then the last look, then the authority itself. */
  method RemoveProduct(h: Host, start: Selection) returns (outcome: Outcome)
    requires Tracks(h, start) && start.record.removal > ProxyCount(start.record)
    modifies h
    ensures h.Valid() && old(h.log) <= h.log && h.w.present <= old(h.w.present)
    ensures outcome in {Completed, NeedsCompletion, FinalSynchronizationUnknown}
    ensures outcome == FinalSynchronizationUnknown ==> Finalizing(h.w.shown)
    ensures outcome == Completed ==>
      && h.w.shown == NOTHING && h.w.alternatives == {} && AllAbsent(start.record, h.w.present)
      && Resumable(old(h.w.shown), start.record)
    ensures h.reliable && Resumable(old(h.w.shown), start.record) ==> outcome == Completed
  {
    hide Valid, Selected, Host.Valid, Resumable, Earned, AuxiliaryEffects;
    var n := ProxyCount(start.record);
    FinisherKnown(start.record);
    var release := FinishingRelease(start.record).value;
    var facts := h.InspectLifecycle(release);
    if facts.Err? {
      return NeedsCompletion;
    }
    var s := RemoveMember(h, start, Executable, facts.value.executable, n + 1);
    if s.Err? {
      return NeedsCompletion;
    }
    ContinuesKeeps(start.record, s.value.record);
    ghost var a, first := h.w.shown, s.value;
    s := RemoveMember(h, s.value, InstalledRecord, facts.value.installed, n + 2);
    if s.Err? {
      return NeedsCompletion;
    }
    MovedOn(old(h.w.shown), start, a, first, h.w.shown, s.value);
    ContinuesKeeps(start.record, s.value.record);
    WithinLimit(s.value.record);
    LimitResumes(h.w.shown, s.value);
    outcome := Conclude(h, s.value, release);
  }

  method Conclude(h: Host, s: Selection, release: Release) returns (outcome: Outcome)
    requires Tracks(h, s) && s.record.removal == Limit(s.record)
    requires Executable !in h.w.present && InstalledRecord !in h.w.present
    modifies h
    ensures h.Valid() && old(h.log) <= h.log && h.w.present == old(h.w.present)
    ensures outcome in {Completed, NeedsCompletion, FinalSynchronizationUnknown}
    ensures outcome == FinalSynchronizationUnknown ==> Finalizing(h.w.shown)
    ensures outcome == Completed ==>
      && h.w.shown == NOTHING && h.w.alternatives == {} && AllAbsent(s.record, h.w.present)
    ensures h.reliable && Resumable(old(h.w.shown), s.record) ==> outcome == Completed
  {
    hide Valid, Host.Valid, AuxiliaryEffects;
    ghost var before, log := h.w, h.log;
    var ok := h.ObserveProxyAbsent(s.record);
    if !ok {
      return NeedsCompletion;
    }
    StillTracks(h, s, before, log);
    hide Earned, Selected, ProxySide;
    var facts := h.InspectLifecycle(release);
    if facts.Err? || facts.value.executable || facts.value.installed {
      return NeedsCompletion;
    }
    AtLimit(h.w.shown, s.record);
    EverythingAbsent(s.record, h.w.present);
    hide AllAbsent;
    var f := h.Finalize(s.location, s.record);
    match f {
      case Done =>
        var a := h.ReadAuthority();
        return if a == Ok(NOTHING) then Completed else NeedsCompletion;
      case Interrupted =>
        return NeedsCompletion;
      case SynchronizationUnknown =>
        return FinalSynchronizationUnknown;
    }
  }

  lemma EverythingAbsent(r: Record, present: set<Effect>)
    requires Valid(r) && ProxyAbsent(r, present) && Executable !in present && InstalledRecord !in present
    ensures AllAbsent(r, present)
  {
    hide Valid, ProxySide, Gone;
    AbsentIsGone(r, present);
  }

  lemma WithinLimit(r: Record)
    requires Valid(r) && r.direction == Removal
    ensures r.removal <= Limit(r)
  {
    hide Resources, OperationShape;
  }

  lemma AtLimit(a: Authority, r: Record)
    requires r.removal == Limit(r) && r.direction == Removal
    ensures Resumable(a, r) ==> a.staged in {None, Some(Canonical(r))}
  {
    hide Valid;
  }

  /** A finished removal never has anything else staged. */
  lemma LimitResumes(a: Authority, s: Selection)
    requires Selected(a) == Ok(Some(s)) && s.record.removal == Limit(s.record) && s.record.direction == Removal
    ensures Resumable(a, s.record)
  {
    hide Valid;
  }

  /** Nothing but the record's own effects stands between a fault-free run and completion. */
  predicate Unobstructed(a: Authority, present: set<Effect>, r: Record) {
    Resumable(a, r) && (r.package || r.removal > 0 || !StartupPending(r, present))
  }

  /**
   The whole sequence, from whatever checkpoint is durable. Completion means that
   nothing of the record's plan is left and no authority can come back, and without
   faults it is reached exactly when nothing is in the way.
   */
  method FinishRemoval(h: Host, selected: Selection) returns (outcome: Outcome)
    requires Selects(h, selected)
    modifies h
    ensures h.Valid() && old(h.log) <= h.log && h.w.present <= old(h.w.present)
    ensures outcome in {Completed, NeedsCompletion, FinalSynchronizationUnknown}
    ensures outcome == FinalSynchronizationUnknown ==> Finalizing(h.w.shown)
    ensures outcome == Completed ==>
      && h.w.shown == NOTHING && h.w.alternatives == {} && AllAbsent(selected.record, h.w.present)
      && Unobstructed(old(h.w.shown), old(h.w.present), selected.record)
    ensures h.reliable && Unobstructed(old(h.w.shown), old(h.w.present), selected.record) ==> outcome == Completed
  {
    hide Valid, Host.Valid, Resumable, AuxiliaryEffects, ProxySide;
    var r := selected.record;
    ghost var before, log := h.w, h.log;
    SelectedLocation(h.w.shown, selected);
    hide Selected;
    var ok := h.Synchronize(selected.location, r);
    if !ok {
      return NeedsCompletion;
    }
    LogGrows(h, h.w.present, log, r);
    SynchronizedBinds(h, selected);
    StillTracks(h, selected, h.w, h.log);
    hide Earned, Binding;
    ok := RemoveAuxiliary(h, selected);
    if !ok {
      return NeedsCompletion;
    }
    var s := RemoveProxy(h, selected);
    if s.Err? {
      return NeedsCompletion;
    }
    ContinuesKeeps(r, s.value.record);
    if !StartupPending(r, h.w.present) {
      SideAbsent(h, s.value);
    }
    ghost var a, first := h.w.shown, s.value;
    s := ConfirmProxyAbsent(h, s.value);
    if s.Err? {
      return NeedsCompletion;
    }
    MovedOn(old(h.w.shown), selected, a, first, h.w.shown, s.value);
    StartupApart(r);
    ContinuesKeeps(r, s.value.record);
    ghost var b, second := h.w.shown, s.value;
    outcome := RemoveProduct(h, s.value);
    MovedResumes(old(h.w.shown), selected, b, second);
  }

  lemma StartupApart(r: Record)
    ensures ProxyStartup !in AuxiliaryEffects(r)
    ensures r.startup.Some? ==> ProxySide(r, ProxyStartup)
  {
    AuxiliaryIsOptional(r);
    hide AuxiliaryEffects;
  }

  lemma MovedResumes(a: Authority, r: Selection, b: Authority, s: Selection)
    requires Moved(a, r, b, s)
    ensures Resumable(b, s.record) ==> Resumable(a, r.record)
  {
  }

  lemma SelectedLocation(a: Authority, s: Selection)
    requires Selected(a) == Ok(Some(s))
    ensures (if s.location == AtCurrent then a.current else a.finalizer) == Some(Canonical(s.record))
  {
  }

  lemma SideAbsent(h: Host, s: Selection)
    requires Tracks(h, s) && s.record.removal >= ProxyCount(s.record) && AuxiliaryAbsent(s.record, h.w.present)
    requires !StartupPending(s.record, h.w.present)
    ensures ProxyAbsent(s.record, h.w.present)
  {
    hide Valid, Host.Valid, AuxiliaryEffects, Selected;
    forall e | ProxySide(s.record, e) ensures e !in h.w.present {
      if e in PROXY_EFFECTS {
        var i :| 0 <= i < 8 && PROXY_EFFECTS[i] == e;
      }
    }
  }

  // ----- Review and execute -----------------------------------------------------------

  /** The release a removal is bound to: the running one to commit, the committed one to finish. */
  function Bound(action: Action, selected: Option<Selection>, executing: Release): (result: Result<Release>) {
    match (action, selected)
    case (Complete, Some(s)) => if s.record.direction == Removal then Err else Ok(executing)
    case (Complete, None) => Ok(executing)
    case (Finish, Some(s)) => FinishingRelease(s.record)
    case (Finish, None) => Err
  }

  function SelectedRecord(selected: Option<Selection>): (found: Option<Record>) {
    if selected.Some? then Some(selected.value.record) else None
  }

  /** The committed removal that an execution carries out. */
  function Goal(action: Action, a: Authority, release: Release): (result: Result<Record>) {
    var selected :- Selected(a);
    match action
    case Complete => CommitRemoval(SelectedRecord(selected), release)
    case Finish => if selected.Some? then Ok(selected.value.record) else Err
  }

  /** The repeated ownership observation is asked for by a commitment and by a finish that has removed nothing yet. */
  predicate Observes(action: Action, a: Authority) {
    action == Complete
    || match Selected(a)
       case Ok(Some(s)) => s.record.direction == Removal && s.record.removal == 0
       case _ => false
  }

  lemma CommittedOnce(source: Option<Record>, release: Release)
    ensures source.Some? && source.value.direction == Removal ==> CommitRemoval(source, release).Err?
  {
  }

  /** A new commitment is publishable, worth nothing yet, and never beside a finalizer. */
  lemma CommitReady(h: Host, release: Release)
    requires h.Valid() && Goal(Complete, h.w.shown, release).Ok?
    ensures var source := SelectedRecord(Selected(h.w.shown).value);
      var r := Goal(Complete, h.w.shown, release).value;
      && PermitsRemoval(source, r) && Valid(r) && Earned(r, h.w.present, h.log) && r.direction == Removal
      && h.w.shown.finalizer.None? && h.w.shown.current == Lift(source) && source != Some(r)
      && (r.package || r.startup.None?)
  {
    var source := SelectedRecord(Selected(h.w.shown).value);
    if source.Some? {
      SelectionIsValid(h);
      if h.w.shown.finalizer.Some? {
        assert source.value.direction == Removal;
      }
    }
    CommitBinds(source, release);
    CommitKind(source, release);
    EarnedAtStart(CommitRemoval(source, release).value, h.w.present, h.log);
    hide Valid, Earned, CommitRemoval, Host.Valid;
  }

  lemma EarnedAtStart(r: Record, present: set<Effect>, log: seq<Event>)
    requires r.removal == 0
    ensures Earned(r, present, log)
  {
    hide AuxiliaryEffects;
  }

  lemma CommitKind(source: Option<Record>, release: Release)
    requires CommitRemoval(source, release).Ok? && (source.Some? ==> Valid(source.value))
    ensures var r := CommitRemoval(source, release).value;
      && (r.package || r.startup.None?)
      && (source.Some? ==> source.value.direction != Removal)
  {
    hide Resources, OperationShape;
  }

  class Session {
    const host: Host
    /** Advances with every review and execution, so that no token is accepted twice. */
    var owner: nat

    constructor (host: Host)
      ensures this.host == host && owner == 0
    {
      this.host := host;
      owner := 0;
    }

    /** Reads and admits; nothing is changed but the epoch. */
    method Review(action: Action) returns (p: Result<Prepared>)
      requires host.Valid()
      modifies this
      ensures owner == old(owner) + 1
      ensures p.Ok? ==>
        && p.value.owner == owner && p.value.action == action && p.value.snapshot == host.w.shown
        && p.value.release == host.executing && host.owned
        && Goal(action, p.value.snapshot, p.value.release).Ok?
        && (action == Finish ==>
              FinishingRelease(Goal(action, p.value.snapshot, p.value.release).value) == Ok(host.executing))
      ensures host.reliable && action == Finish && Goal(Finish, host.w.shown, host.executing).Ok? ==>
        (p.Ok? <==>
          host.owned && FinishingRelease(Goal(Finish, host.w.shown, host.executing).value) == Ok(host.executing))
      ensures host.reliable && action == Complete ==>
        (p.Ok? <==>
          && host.owned && Goal(Complete, host.w.shown, host.executing).Ok?
          && Executable in host.w.present && InstalledRecord in host.w.present)
    {
      hide Host.Valid, Selected, CommitRemoval, FinishingRelease;
      owner := owner + 1;
      var a := host.ReadAuthority();
      if a.Err? || Selected(a.value).Err? {
        return Err;
      }
      var selected := Selected(a.value).value;
      var release := Bound(action, selected, host.executing);
      CommittedOnce(SelectedRecord(selected), host.executing);
      if release != Ok(host.executing) {
        return Err;
      }
      var lifecycle := host.InspectLifecycle(host.executing);
      if lifecycle.Err? || (action == Complete && !(lifecycle.value.executable && lifecycle.value.installed)) {
        return Err;
      }
      var accepted := host.InspectRemoval();
      if !accepted || Goal(action, a.value, host.executing).Err? {
        return Err;
      }
      p := Ok(Prepared(owner, action, a.value, host.executing));
    }

    /**
     Accepts a token once. A refusal removes nothing; completion means the goal's
     whole plan and every authority are gone.
     */
    method Execute(p: Prepared, approved: bool) returns (outcome: Outcome)
      requires host.Valid()
      modifies this, host
      ensures host.Valid() && old(host.log) <= host.log
      ensures old(owner) != p.owner ==> outcome == Refused && owner == old(owner)
      ensures old(owner) == p.owner ==> owner == old(owner) + 1
      ensures old(owner) != p.owner || !approved ==>
        host.w == old(host.w) && host.log == old(host.log) && outcome != Completed
      ensures outcome in {Refused, Declined} ==> host.w.present == old(host.w.present)
      ensures outcome == FinalSynchronizationUnknown ==> Finalizing(host.w.shown)
      ensures host.w.present <= old(host.w.present)
      ensures outcome == Completed ==>
        && p.snapshot == old(host.w.shown) && Goal(p.action, p.snapshot, p.release).Ok?
        && (Observes(p.action, p.snapshot) ==> host.owned)
        && host.w.shown == NOTHING && host.w.alternatives == {}
        && AllAbsent(Goal(p.action, p.snapshot, p.release).value, host.w.present)
      ensures (host.reliable && old(owner) == p.owner && approved && p.snapshot == old(host.w.shown)
               && p.release == host.executing && p.action == Finish
               && (Observes(Finish, p.snapshot) ==> host.owned)
               && Goal(Finish, p.snapshot, p.release).Ok?
               && Goal(Finish, p.snapshot, p.release).value.direction == Removal
               && Unobstructed(p.snapshot, old(host.w.present), Goal(Finish, p.snapshot, p.release).value)) ==>
        outcome == Completed
      ensures outcome == Completed && p.action == Finish ==>
        Unobstructed(p.snapshot, old(host.w.present), Goal(Finish, p.snapshot, p.release).value)
      ensures (host.reliable && old(owner) == p.owner && approved && p.snapshot == old(host.w.shown)
               && p.release == host.executing && p.action == Complete && p.snapshot.staged.None? && host.owned
               && Goal(Complete, p.snapshot, p.release).Ok?
               && Executable in old(host.w.present) && InstalledRecord in old(host.w.present)) ==>
        outcome == Completed
    {
      hide Host.Valid, Valid, Selected, CommitRemoval, Earned, PermitsRemoval, FinishingRelease, Resumable,
           AllAbsent;
      if owner != p.owner {
        return Refused;
      }
      owner := owner + 1;
      if !approved {
        return Declined;
      }
      var ready := Revalidate(p);
      if !ready || Goal(p.action, p.snapshot, p.release).Err? {
        return Refused;
      }
      if p.action == Finish {
        outcome := Resume(p);
      } else {
        outcome := Commit(p);
      }
    }

    /** Everything the review relied on still holds under the retained locks. */
    method Revalidate(p: Prepared) returns (ok: bool)
      requires host.Valid()
      ensures ok ==> host.w.shown == p.snapshot && p.release == host.executing
      ensures ok ==> Observes(p.action, p.snapshot) ==> host.owned
      ensures host.reliable ==>
        (ok <==> host.w.shown == p.snapshot && p.release == host.executing
                 && (Observes(p.action, p.snapshot) ==> host.owned)
                 && (p.action == Complete ==> Executable in host.w.present && InstalledRecord in host.w.present))
    {
      hide Host.Valid;
      ok := host.Call();
      var a := host.ReadAuthority();
      if !ok || a != Ok(p.snapshot) || host.executing != p.release {
        return false;
      }
      var lifecycle := host.InspectLifecycle(p.release);
      if lifecycle.Err? || (p.action == Complete && !(lifecycle.value.executable && lifecycle.value.installed)) {
        return false;
      }
      if Observes(p.action, p.snapshot) {
        ok := host.InspectRemoval();
      }
    }

    method Resume(p: Prepared) returns (outcome: Outcome)
      requires host.Valid() && p.action == Finish && p.snapshot == host.w.shown
      requires Goal(Finish, p.snapshot, p.release).Ok?
      modifies host
      ensures host.Valid() && old(host.log) <= host.log && host.w.present <= old(host.w.present)
      ensures outcome in {Refused, Declined} ==> host.w.present == old(host.w.present)
      ensures outcome == FinalSynchronizationUnknown ==> Finalizing(host.w.shown)
      ensures outcome == Completed ==>
        && host.w.shown == NOTHING && host.w.alternatives == {}
        && AllAbsent(Goal(Finish, p.snapshot, p.release).value, host.w.present)
        && Unobstructed(p.snapshot, old(host.w.present), Goal(Finish, p.snapshot, p.release).value)
      ensures (host.reliable && Goal(Finish, p.snapshot, p.release).value.direction == Removal
               && Unobstructed(p.snapshot, old(host.w.present), Goal(Finish, p.snapshot, p.release).value)) ==>
        outcome == Completed
    {
      hide Valid, Earned, Resumable, AllAbsent, Trusted;
      SelectionIsValid(host);
      var selected := Selected(p.snapshot).value.value;
      if selected.record.direction != Removal {
        return Refused;
      }
      hide Selected;
      outcome := FinishRemoval(host, selected);
    }

    method Commit(p: Prepared) returns (outcome: Outcome)
      requires host.Valid() && p.action == Complete && p.snapshot == host.w.shown
      requires Goal(Complete, p.snapshot, p.release).Ok?
      modifies host
      ensures host.Valid() && old(host.log) <= host.log && host.w.present <= old(host.w.present)
      ensures outcome in {Refused, Declined} ==> host.w.present == old(host.w.present)
      ensures outcome == FinalSynchronizationUnknown ==> Finalizing(host.w.shown)
      ensures outcome == Completed ==>
        && host.w.shown == NOTHING && host.w.alternatives == {}
        && AllAbsent(Goal(Complete, p.snapshot, p.release).value, host.w.present)
      ensures host.reliable && p.snapshot.staged.None? ==> outcome == Completed
    {
      CommitReady(host, p.release);
      hide Host.Valid, Valid, CommitRemoval, Earned, PermitsRemoval, Resumable, AllAbsent;
      var source := SelectedRecord(Selected(p.snapshot).value);
      var record := CommitRemoval(source, p.release).value;
      hide Selected;
      ghost var log := host.log;
      var ok := PublishVerified(host, source, record);
      if !ok {
        var a := host.ReadAuthority();
        return if a.Ok? && Authorizes(a.value, record) then NeedsCompletion else Refused;
      }
      LogGrows(host, host.w.present, log, record);
      SelectedAlone(record);
      UnstagedResumes(host.w.shown, record);
      outcome := FinishRemoval(host, Selection(record, AtCurrent));
    }
  }
}
