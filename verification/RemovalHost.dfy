/**
 The host side of a complete removal: which authority is shown, which others a
 power loss could still bring back, and which owned resources are present.
 */
module RemovalHost {
  import opened Wrappers
  import opened Records
  import opened RemovalPlan

  datatype World = World(shown: Authority, alternatives: set<Authority>, present: set<Effect>)

  datatype Event =
    | Observed(effect: Effect)
    | Cleared
    | Applied(effect: Effect, record: Record)
    | Published(from: Option<Record>, to: Record)
    | Finalized(record: Record)

  // ----- What a checkpoint is worth -------------------------------------------------

  /**
   A recorded checkpoint k: the first k steps were observed absent, and what they
   removed on the proxy side is still absent. Only the two product members may
   have been restored since.
   */
  ghost predicate Earned(r: Record, present: set<Effect>, log: seq<Event>) {
    var n, k := ProxyCount(r), r.removal;
    && (k > 0 ==> forall e :: e in AuxiliaryEffects(r) ==> e !in present)
    && (k > 1 && r.startup.Some? ==> ProxyStartup !in present)
    && (forall i :: 0 <= i < n && i < k && i < 8 ==>
          PROXY_EFFECTS[i] !in present && Observed(PROXY_EFFECTS[i]) in log)
    && (k > n ==> ProxyAbsent(r, present) && Cleared in log)
    && (k > n + 1 ==> Observed(Executable) in log)
    && (k > n + 2 ==> Observed(InstalledRecord) in log)
  }

  ghost predicate Backed(c: Option<Content>, present: set<Effect>, log: seq<Event>) {
    c.Some? && c.value.Canonical? ==>
      Valid(c.value.record) && (c.value.record.direction == Removal ==> Earned(c.value.record, present, log))
  }

  /** A finalizer holds a finished removal and stands alone. */
  predicate FinalShape(a: Authority) {
    a.finalizer.Some? ==>
      && a.current.None? && a.staged.None? && a.finalizer.value.Canonical?
      && a.finalizer.value.record.direction == Removal
      && a.finalizer.value.record.removal == Limit(a.finalizer.value.record)
  }

  ghost predicate Trusted(a: Authority, present: set<Effect>, log: seq<Event>) {
    && Backed(a.current, present, log) && Backed(a.staged, present, log) && Backed(a.finalizer, present, log)
    && FinalShape(a)
  }

  ghost predicate Sound(w: World, log: seq<Event>) {
    && Trusted(w.shown, w.present, log)
    && forall a :: a in w.alternatives ==> Trusted(a, w.present, log)
  }

  /** What may come next: the authority goes only right after the whole proxy side was seen to be gone. */
  predicate InOrder(t: seq<Event>, e: Event) {
    match e
    case Applied(x, r) => r.direction == Removal && Planned(r, x)
    case Published(from, to) => PermitsRemoval(from, to)
    case Finalized(r) =>
      && r.direction == Removal && r.removal == Limit(r)
      && |t| > 0 && t[|t| - 1] == Cleared
    case _ => true
  }

  ghost predicate Orderly(log: seq<Event>) { forall i :: 0 <= i < |log| ==> InOrder(log[..i], log[i]) }

  lemma OrderlyExtends(log: seq<Event>, e: Event)
    requires Orderly(log) && InOrder(log, e)
    ensures Orderly(log + [e])
  {
    hide InOrder;
    var t := log + [e];
    forall i | 0 <= i < |t| ensures InOrder(t[..i], t[i]) {
      assert t[..i] == log[..i];
    }
    assert log[..|log|] == log;
  }

  /** Whatever record these files show is in removal. */
  predicate Committed(a: Authority) {
    && (a.current.Some? ==> a.current.value.Canonical? && a.current.value.record.direction == Removal)
    && (a.finalizer.Some? ==> a.finalizer.value.Canonical? && a.finalizer.value.record.direction == Removal)
  }

  /** The commitment is durable: it is shown, and no power loss brings back a record from before it. */
  ghost predicate Binding(w: World) {
    Committed(w.shown) && forall a :: a in w.alternatives ==> Committed(a)
  }

  predicate Acted(log: seq<Event>) { exists i :: 0 <= i < |log| && log[i].Applied? }

  /** Once anything has been taken away there is no way back. */
  ghost predicate Irrevocable(w: World, log: seq<Event>) { Acted(log) ==> Binding(w) }

  lemma IrrevocableKept(w: World, x: World, log: seq<Event>, e: Event)
    requires Irrevocable(w, log) && (Binding(w) ==> Binding(x)) && (e.Applied? ==> Binding(w))
    ensures Irrevocable(x, log) && Irrevocable(x, log + [e])
  {
    hide Binding;
    if Acted(log + [e]) {
      var i :| 0 <= i < |log + [e]| && (log + [e])[i].Applied?;
      assert i < |log| ==> log[i].Applied?;
    }
  }

  /** No publication and no finalization gives up a commitment. */
  lemma StaysBound(w: World, x: World)
    requires (exists expected, target {:trigger Publishes(w, expected, target, x)} ::
                Publishes(w, expected, target, x) && target.direction == Removal)
             || (exists r {:trigger Finalizes(w, r, x)} :: Finalizes(w, r, x) && r.direction == Removal)
    ensures Binding(w) ==> Binding(x)
  {
  }

  // ----- Preservation ---------------------------------------------------------------

  /** Removing resources, restoring product members and observing more keep every checkpoint's worth. */
  predicate Reduces(before: set<Effect>, after: set<Effect>) {
    forall e :: e in after && e !in before ==> e == Executable || e == InstalledRecord
  }

  lemma EarnedKept(r: Record, before: set<Effect>, after: set<Effect>, log: seq<Event>, more: seq<Event>)
    requires Earned(r, before, log) && Reduces(before, after)
    ensures Earned(r, after, log + more)
  {
    ProductApart(r);
    hide AuxiliaryEffects;
  }

  predicate Optional(e: Effect) {
    || e.DedicatedTunnel? || e.ClientIdentitySubscription? || e.ClientIdentityTarget? || e.PreparedSubscription?
    || e.SubscriptionRotation? || e.SubscriptionRepair? || e.ServingRuntime? || e.SubscriptionFirewall?
    || e.RetiredHttps?
  }

  predicate AllOptional(s: seq<Effect>) { forall e :: e in s ==> Optional(e) }

  lemma OptionalJoin(a: seq<Effect>, b: seq<Effect>)
    requires AllOptional(a) && AllOptional(b)
    ensures AllOptional(a + b)
  {
  }

  lemma AuxiliaryIsOptional(r: Record)
    ensures AllOptional(AuxiliaryEffects(r))
  {
    var a, b := TunnelEffects(r), RotationEffects(r);
    var c := if r.enablement.Some? then [PreparedSubscription] else [];
    var d := if r.link.Some? then [SubscriptionRotation] else [];
    var e := if RepairSelected(r) then [SubscriptionRepair] else [];
    var f := if r.serving.Some? && !ServingRemoved(r) then [ServingRuntime] else [];
    var g := if r.subscription.Some? then [SubscriptionFirewall] else [];
    var h := if r.retired then [RetiredHttps] else [];
    OptionalJoin(a, b);
    OptionalJoin(a + b, c);
    OptionalJoin(a + b + c, d);
    OptionalJoin(a + b + c + d, e);
    OptionalJoin(a + b + c + d + e, f);
    OptionalJoin(a + b + c + d + e + f, g);
    OptionalJoin(a + b + c + d + e + f + g, h);
    hide AllOptional, RotationEffects;
  }

  /** The product members are never on the proxy side. */
  lemma ProductApart(r: Record)
    ensures !ProxySide(r, Executable) && !ProxySide(r, InstalledRecord)
    ensures forall e :: e in AuxiliaryEffects(r) ==> e != Executable && e != InstalledRecord && e !in PROXY_EFFECTS
  {
    AuxiliaryIsOptional(r);
    hide AuxiliaryEffects;
  }

  lemma TrustedKept(a: Authority, before: set<Effect>, after: set<Effect>, log: seq<Event>, more: seq<Event>)
    requires Trusted(a, before, log) && Reduces(before, after)
    ensures Trusted(a, after, log + more)
  {
    hide Earned, Valid, Reduces;
    forall r: Record | Earned(r, before, log) ensures Earned(r, after, log + more) {
      EarnedKept(r, before, after, log, more);
    }
  }

  lemma SoundKept(w: World, after: set<Effect>, log: seq<Event>, more: seq<Event>)
    requires Sound(w, log) && Reduces(w.present, after)
    ensures Sound(w.(present := after), log + more)
  {
    hide Trusted, Reduces;
    TrustedKept(w.shown, w.present, after, log, more);
    forall a | a in w.alternatives ensures Trusted(a, after, log + more) {
      TrustedKept(a, w.present, after, log, more);
    }
  }

  // ----- Host operations ------------------------------------------------------------

  datatype Finalization = Done | Interrupted | SynchronizationUnknown

  function Lift(r: Option<Record>): (found: Option<Content>) {
    if r.Some? then Some(Canonical(r.value)) else None
  }

  /** What publishing target over expected may leave, and what a power loss could then show. */
  predicate Publishes(w: World, expected: Option<Record>, target: Record, x: World) {
    var old_, staged := w.shown, Some(Canonical(target));
    && x.present == w.present
    && (|| x == w
        || (old_.current == Lift(expected) && old_.staged.None?
            && x == w.(shown := old_.(staged := Some(Torn))))
        || (old_.current == Lift(expected) && (old_.staged.None? || old_.staged == staged)
            && (|| x == w.(shown := old_.(staged := staged))
                || (x.shown == Authority(staged, None, None)
                    && x.alternatives <= w.alternatives
                       + {old_.(staged := None), old_.(staged := Some(Torn)), old_.(staged := staged)}))))
  }

  lemma PublishKept(w: World, expected: Option<Record>, target: Record, x: World, log: seq<Event>)
    requires Sound(w, log) && Publishes(w, expected, target, x)
    requires Valid(target) && target.direction == Removal && Earned(target, w.present, log)
    requires w.shown.finalizer.None?
    ensures Sound(x, log)
  {
    hide Earned, Valid;
    var staged := Some(Canonical(target));
    assert Backed(staged, w.present, log);
    assert Trusted(w.shown.(staged := None), w.present, log);
    assert Trusted(w.shown.(staged := Some(Torn)), w.present, log);
    assert Trusted(w.shown.(staged := staged), w.present, log);
    assert Trusted(Authority(staged, None, None), w.present, log);
    hide Trusted, Backed;
  }

  /** Where the sequence of a finalization may have stopped. */
  predicate Finalizes(w: World, r: Record, x: World) {
    var c := Some(Canonical(r));
    var moved := Authority(None, None, c);
    && x.present == w.present
    && x.shown in {w.shown, w.shown.(staged := None), moved, NOTHING}
    && x.alternatives <= w.alternatives + {w.shown, w.shown.(staged := None), moved}
  }

  lemma FinalizeKept(w: World, r: Record, location: Location, x: World, log: seq<Event>)
    requires Sound(w, log) && Finalizes(w, r, x) && r.direction == Removal && r.removal == Limit(r)
    requires Selected(w.shown) == Ok(Some(Selection(r, location)))
    ensures Sound(x, log)
  {
    hide Earned, Valid;
    var c := Some(Canonical(r));
    assert w.shown.current == c || w.shown.finalizer == c;
    assert Backed(c, w.present, log);
    assert Trusted(w.shown.(staged := None), w.present, log);
    assert Trusted(Authority(None, None, c), w.present, log);
    assert Trusted(NOTHING, w.present, log);
    hide Trusted, Backed;
  }

  class Host {
    const reliable: bool
    /** Identity of the executable that runs, authenticated by the host. */
    const executing: Release
    /** Whether everything recorded is found on the machine as owned, and nothing else is in the way. */
    const owned: bool
    var w: World
    ghost var log: seq<Event>

    ghost predicate Valid()
      reads this
    {
      Sound(w, log) && Orderly(log) && Irrevocable(w, log)
    }

    constructor (reliable: bool, executing: Release, owned: bool, w: World, ghost log: seq<Event>)
      requires Sound(w, log) && Orderly(log) && Irrevocable(w, log)
      ensures Valid() && this.reliable == reliable && this.executing == executing && this.owned == owned
      ensures this.w == w && this.log == log
    {
      this.reliable := reliable;
      this.executing := executing;
      this.owned := owned;
      this.w := w;
      this.log := log;
    }

    method Call() returns (ok: bool)
      ensures reliable ==> ok
    {
      if reliable {
        return true;
      }
      ok := *;
    }

    ghost method Log(e: Event)
      requires Valid() && InOrder(log, e) && (e.Applied? ==> Binding(w))
      modifies this`log
      ensures Valid() && log == old(log) + [e]
    {
      hide Trusted, Reduces, Irrevocable, Binding;
      IrrevocableKept(w, w, log, e);
      SoundKept(w, w.present, log, [e]) by { SameReduces(w.present); }
      hide InOrder, Orderly;
      OrderlyExtends(log, e);
      log := log + [e];
    }

    method ReadAuthority() returns (a: Result<Authority>)
      ensures a.Ok? ==> a.value == w.shown
      ensures reliable ==> a.Ok?
    {
      var ok := Call();
      a := if ok then Ok(w.shown) else Err;
    }

    /** Its own result is never trusted: the caller reads back and synchronizes. */
    method Publish(expected: Option<Record>, target: Record)
      requires Valid() && PermitsRemoval(expected, target)
      requires Records.Valid(target) && Earned(target, w.present, log)
      requires w.shown.finalizer.None?
      modifies this
      ensures Valid() && log == old(log) + [Published(expected, target)]
      ensures Publishes(old(w), expected, target, w)
      ensures Binding(old(w)) ==> Binding(w)
      ensures reliable && old(w).shown.current == Lift(expected)
              && old(w).shown.staged in {None, Some(Canonical(target))} ==>
        w.shown == Authority(Some(Canonical(target)), None, None)
    {
      hide Records.Valid, Earned, PermitsRemoval, Trusted, Binding;
      RemovalDirection(expected, target);
      EarnedKept(target, w.present, w.present, log, [Published(expected, target)]) by { SameReduces(w.present); }
      Log(Published(expected, target));
      if reliable && w.shown.current == Lift(expected) && w.shown.staged in {None, Some(Canonical(target))} {
        var x := w.(shown := Authority(Some(Canonical(target)), None, None));
        PublishKept(w, expected, target, x, log);
        StaysBound(w, x);
        w := x;
        return;
      }
      var x: World := *;
      if Publishes(w, expected, target, x) {
        PublishKept(w, expected, target, x, log);
        StaysBound(w, x);
        w := x;
      }
    }

    /** Makes the shown authority the only one its own directory can bring back. */
    method Synchronize(location: Location, r: Record) returns (ok: bool)
      requires Valid()
      modifies this`w
      ensures Valid() && w.shown == old(w).shown && w.present == old(w).present
      ensures w.alternatives <= old(w).alternatives
      ensures ok ==>
        && (if location == AtCurrent then w.shown.current else w.shown.finalizer) == Some(Canonical(r))
        && (forall a :: a in w.alternatives ==> location == AtCurrent && a.finalizer.Some?)
      ensures reliable ==>
        (if location == AtCurrent then w.shown.current else w.shown.finalizer) == Some(Canonical(r)) ==> ok
    {
      ok := Call();
      ok := ok && (if location == AtCurrent then w.shown.current else w.shown.finalizer) == Some(Canonical(r));
      if ok {
        hide Trusted, Orderly;
        w := w.(alternatives := set a | a in w.alternatives && location == AtCurrent && a.finalizer.Some?);
      }
    }

    /** Absent, exactly owned, or an error. */
    method InspectEffect(e: Effect, r: Record) returns (absent: Result<bool>)
      requires Valid()
      modifies this`log
      ensures Valid()
      ensures absent.Ok? ==> (absent.value <==> e !in w.present)
      ensures log == if absent == Ok(true) then old(log) + [Observed(e)] else old(log)
      ensures reliable ==> absent.Ok?
    {
      var ok := Call();
      absent := if ok then Ok(e !in w.present) else Err;
      if absent == Ok(true) {
        Log(Observed(e));
      }
    }

    /** Removes only what the selected record owns, once that is durable; success alone proves nothing. */
    method Apply(e: Effect, r: Record) returns (ok: bool)
      requires Valid() && r.direction == Removal && Planned(r, e) && Binding(w)
      requires Selected(w.shown).Ok? && Selected(w.shown).value.Some? && Selected(w.shown).value.value.record == r
      modifies this
      ensures Valid() && log == old(log) + [Applied(e, r)]
      ensures w.shown == old(w).shown && w.alternatives == old(w).alternatives
      ensures w.present == old(w).present || w.present == old(w).present - {e}
      ensures reliable ==> ok && w.present == old(w).present - {e}
    {
      hide Selected, Planned, Trusted;
      assert InOrder(log, Applied(e, r));
      Log(Applied(e, r));
      ok := Call();
      var effective: bool := *;
      if reliable || effective {
        hide Orderly;
        SoundKept(w, w.present - {e}, log, []);
        assert log + [] == log;
        w := w.(present := w.present - {e});
      }
    }

    /** A fresh look at the whole proxy side, including steps that were skipped. */
    method ObserveProxyAbsent(r: Record) returns (ok: bool)
      requires Valid()
      modifies this`log
      ensures Valid()
      ensures ok ==> ProxyAbsent(r, w.present)
      ensures log == if ok then old(log) + [Cleared] else old(log)
      ensures reliable ==> (ok <==> ProxyAbsent(r, w.present))
    {
      ok := Call();
      var absent := forall e :: e in w.present ==> !ProxySide(r, e);
      ok := ok && absent;
      if ok {
        Log(Cleared);
      }
    }

    /** The exact release's members, once the state directory holds nothing else. */
    method InspectLifecycle(release: Release) returns (facts: Result<LifecycleFacts>)
      ensures facts.Ok? ==>
        && facts.value.release == release && facts.value.valid
        && (facts.value.executable <==> Executable in w.present)
        && (facts.value.installed <==> InstalledRecord in w.present)
      ensures reliable ==> facts.Ok?
    {
      var ok := Call();
      facts := if ok
        then Ok(LifecycleFacts(release, true, Executable in w.present, InstalledRecord in w.present))
        else Err;
    }

    /** The complete ownership observation. */
    method InspectRemoval() returns (accepted: bool)
      ensures accepted ==> owned
      ensures reliable ==> (accepted <==> owned)
    {
      var ok := Call();
      accepted := ok && owned;
    }

    /** The authority goes last: moved aside, the directory removed, then unlinked. */
    method Finalize(location: Location, r: Record) returns (f: Finalization)
      requires Valid() && r.direction == Removal && r.removal == Limit(r)
      requires |log| > 0 && log[|log| - 1] == Cleared
      requires Selected(w.shown) == Ok(Some(Selection(r, location)))
      modifies this
      ensures Valid() && log == old(log) + [Finalized(r)]
      ensures w.present == old(w).present
      ensures Binding(old(w)) ==> Binding(w)
      ensures f.SynchronizationUnknown? ==> w.shown == NOTHING || w.shown.finalizer.Some?
      ensures f.Interrupted? ==> w.shown != NOTHING
      ensures f.Done? ==> w.shown == NOTHING && w.alternatives == {}
      ensures reliable && old(w).shown.staged in {None, Some(Canonical(r))} ==> f.Done?
    {
      hide Selected, Trusted, Records.Valid;
      Log(Finalized(r));
      var ok := Call();
      if ok && w.shown.staged in {None, Some(Canonical(r))} {
        var x := World(NOTHING, {}, w.present);
        FinalizeKept(w, r, location, x, log);
        StaysBound(w, x);
        w := x;
        return Done;
      }
      var x: World := *;
      if Finalizes(w, r, x) {
        FinalizeKept(w, r, location, x, log);
        StaysBound(w, x);
        w := x;
      }
      var unlinking: bool := *;
      if w.shown == NOTHING || (w.shown.finalizer.Some? && unlinking) {
        return SynchronizationUnknown;
      }
      return Interrupted;
    }
  }

  lemma SameReduces(s: set<Effect>)
    ensures Reduces(s, s)
  {
  }

  lemma RemovalDirection(from: Option<Record>, to: Record)
    requires PermitsRemoval(from, to)
    ensures to.direction == Removal
  {
    hide Valid, CommitRemoval, NextRemoval;
  }
}
