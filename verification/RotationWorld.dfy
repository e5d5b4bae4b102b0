/**
 The state a Client Identity rotation works on: the Ownership Record as stored,
 and the machine it describes. The machine acts by itself between the steps of a
 run: services stop, and start whenever the start routes let them.
 */
module RotationWorld {
  import opened Wrappers
  import opened Records
  import opened IdentityRecords
  import IdentityHistory
  import opened RuntimeHandoff

  datatype Snapshot = Snapshot(current: Record, staged: Option<Content>)

  /** The store. Until it is synchronized, a power loss may bring fallback back. */
  datatype Journal = Journal(current: Record, staged: Option<Content>, synced: bool, fallback: Record)

  /** Configurations are named by digest; proxy and subscription hold what each process loaded. */
  datatype Machine = Machine(
    file: string, fileSynced: bool, material: bool, dropIn: bool, loaded: bool,
    proxy: Option<string>, subscription: Option<string>)

  datatype World = World(journal: Journal, machine: Machine)

  // ----- Agreement between record and machine -----------------------------------

  predicate From(r: Record, i: nat) { r.rotation.Some? && r.rotation.value.checkpoint.Index() >= i }

  predicate Before(r: Record, i: nat) { r.rotation.Some? && r.rotation.value.checkpoint.Index() < i }

  predicate AtRevoked(r: Record) { r.rotation.Some? && r.rotation.value.checkpoint == Revoked }

  /** The one configuration any process may run under a record. */
  function Permitted(r: Record): (found: Option<string>) {
    if AtRevoked(r) then None else Some(r.config)
  }

  predicate Holds(m: Machine, r: Record) {
    && (m.file == r.config || (AtRevoked(r) && m.file == r.rotation.value.target))
    && (m.fileSynced || AtRevoked(r))
    && (m.proxy.Some? ==> m.proxy == Permitted(r))
    && (m.subscription.Some? ==> m.subscription == Permitted(r) && (r.serving.Some? || r.enablement.Some?))
    && (From(r, 8) ==> m.dropIn && m.loaded)
    && (From(r, 8) && Before(r, 10) ==> m.material)
  }

  predicate Fits(m: Machine, r: Record) {
    && Valid(r) && r.phase == Running && r.direction == Idle
    && (r.rotation.Some? ==> r.startup.Some? && r.startup.value.dropIn == DROP_IN)
    && Holds(m, r)
  }

  /** No process, no route that could start one, and everything the next steps need. */
  predicate Silent(m: Machine) {
    m.proxy.None? && m.subscription.None? && m.dropIn && m.loaded && m.material
  }

  predicate Sealed(m: Machine, r: Record) { From(r, 5) && Before(r, 8) && Silent(m) }

  /** The step to n revokes the source. */
  predicate Crossing(r: Record, n: Record) { Before(r, 8) && From(n, 8) }

  /** The step to n ends the operation of r. */
  predicate Closing(r: Record, n: Record) { r.rotation.Some? && n.rotation.None? }

  /** Nothing of an operation is left on the machine but the integration the record keeps, as loaded. */
  predicate Vacated(m: Machine, n: Record) {
    !m.material && m.dropIn == n.startup.Some? && m.loaded == m.dropIn
  }

  /** The machine is ready for n to replace r at any moment. */
  predicate Backs(m: Machine, r: Record, n: Record) {
    && (Crossing(r, n) ==> Sealed(m, r))
    && (Closing(r, n) ==> Vacated(m, n))
    && (AtRevoked(r) && From(n, 9) ==> m.file == r.rotation.value.target && m.fileSynced)
  }

  predicate SameAuthority(r: Record, n: Record) {
    && r.serving == n.serving && r.enablement == n.enablement
    && (Permitted(r) == Permitted(n) || From(n, 8))
    && (AtRevoked(n) ==> Before(r, 8) || r == n)
  }

  predicate Sound(w: World) {
    var j, m := w.journal, w.machine;
    && Fits(m, j.current)
    && (j.staged.Some? && j.staged.value.Canonical? ==> Backs(m, j.current, j.staged.value.record))
    && (!j.synced ==> Fits(m, j.fallback) && Backs(m, j.fallback, j.current) && SameAuthority(j.fallback, j.current))
  }

  // ----- The machine acting by itself -------------------------------------------

  /** An ordinary start; without the loaded condition systemd asks nobody. */
  predicate ProxyStarts(w: World) {
    w.machine.loaded ==>
      && w.journal.staged.None?
      && AuthorizesProxyStart(w.journal.current, w.machine.file, w.machine.dropIn, false, false, None)
  }

  predicate SubscriptionStarts(w: World) {
    w.journal.staged.None? && SelectHttpAuthority(w.journal.current, false).Ok?
  }

  predicate Elapses(w: World, m: Machine) {
    && m == w.machine.(proxy := m.proxy, subscription := m.subscription)
    && (m.proxy == w.machine.proxy || m.proxy.None? || (ProxyStarts(w) && m.proxy == Some(w.machine.file)))
    && (m.subscription == w.machine.subscription || m.subscription.None?
        || (SubscriptionStarts(w) && m.subscription == Some(w.machine.file)))
  }

  /** No ordinary start is possible between the gate and the end of the rotation. */
  lemma GatedStarts(w: World)
    requires Fits(w.machine, w.journal.current)
    requires From(w.journal.current, 5)
    ensures !SubscriptionStarts(w)
    ensures w.machine.loaded ==> !ProxyStarts(w)
  {
    ServingFollowsCheckpoint(w.journal.current, false);
    CutoverFollowsCheckpoint(w.journal.current);
    hide Valid, SelectHttpAuthority, CutoverConfiguration;
  }

  lemma StartedServing(w: World)
    requires Fits(w.machine, w.journal.current) && SubscriptionStarts(w)
    ensures w.journal.current.serving.Some? || w.journal.current.enablement.Some?
    ensures !From(w.journal.current, 5)
  {
    if From(w.journal.current, 5) {
      GatedStarts(w);
    }
    hide Valid;
  }

  lemma ElapsesKeepsHolds(w: World, m: Machine, r: Record)
    requires Fits(w.machine, w.journal.current) && Elapses(w, m)
    requires Holds(w.machine, r) && SameAuthority(r, w.journal.current)
    ensures Holds(m, r)
  {
    if From(w.journal.current, 5) {
      GatedStarts(w);
    }
    if SubscriptionStarts(w) {
      StartedServing(w);
    }
    hide Valid, ProxyStarts, SubscriptionStarts;
  }

  /** Whatever the machine does by itself, the record keeps describing it. */
  lemma ElapsesKeepsSound(w: World, m: Machine)
    requires Sound(w) && Elapses(w, m)
    ensures Sound(w.(machine := m))
    ensures Sealed(w.machine, w.journal.current) ==> Sealed(m, w.journal.current)
  {
    hide Valid, ProxyStarts, SubscriptionStarts, SameAuthority;
    var r := w.journal.current;
    SameSide(r);
    ElapsesKeepsHolds(w, m, r);
    if !w.journal.synced {
      ElapsesKeepsHolds(w, m, w.journal.fallback);
    }
    if From(r, 5) {
      GatedStarts(w);
    } else {
      NotSealed(w.machine, w.journal.fallback, r);
    }
  }

  lemma SameSide(r: Record)
    ensures SameAuthority(r, r)
  {
  }

  lemma NotSealed(m: Machine, r: Record, n: Record)
    requires !From(n, 5)
    ensures !Crossing(r, n)
  {
  }

  // ----- Losing power -----------------------------------------------------------

  /** While unsynchronized, the disk may fall back to the record before, beside part of the new one. */
  predicate FallsBack(j: Journal, k: Journal) {
    && (|| (k.current == j.current && (k.staged == j.staged || k.staged.None? || k.staged == Some(Torn)))
        || (!j.synced && k.current == j.fallback
            && (k.staged.None? || k.staged == Some(Torn) || k.staged == Some(Canonical(j.current)))))
    && k.synced
  }

  /** A complete stage relies on the operation having been taken off the machine. */
  predicate StagedClosing(j: Journal) {
    j.staged.Some? && j.staged.value.Canonical? && Closing(j.current, j.staged.value.record)
  }

  /**
   The disk may fall back, and every process is gone. What effects before revocation had begun may
   be undone, but for what a stage relies on: an effect is synchronized before the next publication.
   */
  predicate LosesPower(w: World, after: World) {
    var j, m, k, n := w.journal, w.machine, after.journal, after.machine;
    && FallsBack(j, k)
    && n.proxy.None? && n.subscription.None? && n.loaded == n.dropIn
    && n.fileSynced
    && (n.file == m.file || (!m.fileSynced && AtRevoked(j.current) && n.file == j.current.rotation.value.source))
    && (n.dropIn == m.dropIn || (Before(k.current, 8) && !Sealed(m, k.current) && !StagedClosing(k)))
    && (n.material == m.material || (Before(k.current, 8) && !Sealed(m, k.current) && !StagedClosing(k)))
  }

  /** Whichever record comes back described the machine before. */
  lemma PowerLossSelects(w: World, after: World)
    requires Sound(w) && LosesPower(w, after)
    ensures Fits(w.machine, after.journal.current)
    ensures (after.journal.staged.Some? && after.journal.staged.value.Canonical?) ==>
      Backs(w.machine, after.journal.current, after.journal.staged.value.record)
  {
    hide Valid, Holds, Backs, SameAuthority;
  }

  lemma PowerLossHolds(w: World, after: World)
    requires Sound(w) && LosesPower(w, after) && Fits(w.machine, after.journal.current)
    ensures Holds(after.machine, after.journal.current)
  {
    hide Valid, Backs;
    if AtRevoked(w.journal.current) {
      RevokedConfig(w.journal.current);
    }
  }

  lemma PowerLossBacks(w: World, after: World, n: Record)
    requires LosesPower(w, after) && Backs(w.machine, after.journal.current, n)
    requires after.journal.staged == Some(Canonical(n))
    ensures Backs(after.machine, after.journal.current, n)
  {
  }

  lemma PowerLossKeepsSound(w: World, after: World)
    requires Sound(w) && LosesPower(w, after)
    ensures Sound(after)
  {
    PowerLossSelects(w, after);
    PowerLossHolds(w, after);
    var k := after.journal;
    assert k.synced;
    if k.staged.Some? && k.staged.value.Canonical? {
      PowerLossBacks(w, after, k.staged.value.record);
    }
    hide Valid, Holds, Backs, LosesPower;
  }

  lemma RevokedConfig(r: Record)
    requires Valid(r) && AtRevoked(r)
    ensures r.config == r.rotation.value.source
  {
    IdentityHistory.OpenShape(r);
  }
}
