/**
 One process driving a rotation. Every call may fail, at which point the process
 is as good as dead; the machine acts by itself before every call. All worlds
 passed through are kept, so that validity speaks about each moment of a run.
 */
module RotationHost {
  import opened Wrappers
  import opened Records
  import opened IdentityRecords
  import IdentityHistory
  import opened RuntimeHandoff
  import opened RotationWorld
  import opened RotationEffects

  /** What a guarded run does that later steps rely on. */
  datatype Event =
    | Began
    | Performed(effect: Effect, at: Checkpoint)
    | Succeeded(effect: Effect)
    | Routed
    | Accepted
    | VerifiedRunning
    | Attempted(from: Record, to: Record, replayed: bool)

  /** Leaving an operation after revocation. */
  predicate Completing(r: Record, n: Record) { From(r, 8) && n.rotation.None? }

  predicate Breaks(e: Event) { e.Began? || e.Attempted? }

  /** The event has happened since this process began, and since its last publication. */
  predicate Since(t: seq<Event>, e: Event) {
    |t| > 0 && !Breaks(t[|t| - 1]) && (t[|t| - 1] == e || Since(t[..|t| - 1], e))
  }

  /** This process saw the recorded side running and settled its subscription. */
  predicate Served(t: seq<Event>) { Since(t, VerifiedRunning) && Since(t, Succeeded(FinishSubscription)) }

  lemma SinceGrows(t: seq<Event>, x: Event, e: Event)
    ensures !Breaks(x) && Since(t, e) ==> Since(t + [x], e)
    ensures !Breaks(x) && x == e ==> Since(t + [x], e)
  {
    assert (t + [x])[..|t + [x]| - 1] == t;
  }

  /** An effect is in order: the staging goes only after the machine was seen to do without it. */
  predicate EffectTimely(t: seq<Event>, e: Effect) {
    e == RemoveTarget ==> Served(t)
  }

  /** What a process has done itself before it records a checkpoint. */
  predicate Evident(t: seq<Event>, c: Checkpoint) {
    match c
    case Authorized => true
    case TargetPrepared => Since(t, Succeeded(PrepareTarget))
    case IntegrationPublished => Since(t, Succeeded(PublishStartup))
    case Reloaded => Since(t, Succeeded(Reload))
    case RouteVerified => Since(t, Routed)
    case Gated => Since(t, Routed)
    case Stopped => Since(t, Routed) && Since(t, Succeeded(StopSource))
    case Quiescent => Since(t, Routed) && Since(t, Accepted)
    case Revoked => Since(t, Routed) && Since(t, Accepted)
    case TargetPublished => Since(t, Routed) && Since(t, Succeeded(PublishTarget))
    case TargetStarted => Since(t, Routed) && Since(t, Succeeded(StartTarget))
  }

  /** A step that is no replay of a stage has its evidence. */
  predicate Founded(t: seq<Event>, r: Record, n: Record, replayed: bool) {
    !replayed && r.rotation.Some? && n.rotation.Some? && r != n ==> Evident(t, n.rotation.value.checkpoint)
  }

  /** An event is in order given the ones just before it. */
  predicate InOrder(t: seq<Event>, i: nat)
    requires i < |t|
  {
    match t[i]
    case Performed(e, c) => Belongs(e, c) && EffectTimely(t[..i], e)
    case Attempted(r, n, replayed) =>
      && PermitsIdentity(r, n)
      && (Crossing(r, n) ==> i > 1 && t[i - 1].Accepted? && t[i - 2].Routed?)
      && (Completing(r, n) ==> i > 0 && t[i - 1].VerifiedRunning?)
      && (Closing(r, n) ==> Served(t[..i]))
      && Founded(t[..i], r, n, replayed)
    case _ => true
  }

  ghost predicate Disciplined(t: seq<Event>) { forall i :: 0 <= i < |t| ==> InOrder(t, i) }

  /** Ready to be published as the next event. */
  predicate Timely(t: seq<Event>, r: Record, n: Record) {
    && (Crossing(r, n) ==> |t| > 1 && t[|t| - 1].Accepted? && t[|t| - 2].Routed?)
    && (Completing(r, n) ==> |t| > 0 && t[|t| - 1].VerifiedRunning?)
    && (Closing(r, n) ==> Served(t))
  }

  lemma DisciplineExtends(t: seq<Event>, e: Event)
    requires Disciplined(t)
    requires e.Performed? ==> Belongs(e.effect, e.at) && EffectTimely(t, e.effect)
    requires e.Attempted? ==>
      PermitsIdentity(e.from, e.to) && Timely(t, e.from, e.to) && Founded(t, e.from, e.to, e.replayed)
    ensures Disciplined(t + [e])
  {
    hide PermitsIdentity, Belongs, Crossing, Completing, Closing, Since, Founded;
    forall i | 0 <= i < |t + [e]| ensures InOrder(t + [e], i) {
      assert i <= |t| && (t + [e])[..i] == t[..i];
      if i < |t| {
        assert InOrder(t, i);
      } else {
        assert t[..i] == t;
      }
    }
  }

  /** Only time passed: services may have moved, and the store may have become durable. */
  predicate Drifts(reliable: bool, w: World, x: World) {
    && (x.journal == w.journal || x.journal == w.journal.(synced := true))
    && x.machine == w.machine.(proxy := x.machine.proxy, subscription := x.machine.subscription)
    && (reliable ==> x.machine == w.machine)
    && (Sealed(w.machine, w.journal.current) ==> Sealed(x.machine, x.journal.current))
  }

  function Visible(j: Journal): (snapshot: Snapshot) { Snapshot(j.current, j.staged) }

  /** A stage an ordinary step tolerates: none, or the current record again. */
  predicate Unstaged(s: Snapshot) { s.staged.None? || s.staged == Some(Canonical(s.current)) }

  /** The staged successor a review may retry. */
  predicate Retryable(s: Snapshot) {
    s.staged.Some? ==>
      && s.staged.value.Canonical? && RotationOf(s.current).Ok?
      && PermitsIdentity(s.current, s.staged.value.record)
  }

  /** A rotation may begin: the proxy runs the recorded side, and nothing is left of an earlier target. */
  predicate Admissible(m: Machine, r: Record) { PendingChange(r).None? && Runs(m, r) && !m.material }

  // ----- Course -------------------------------------------------------------------

  /** One operation, and the way it must end if that is settled. */
  datatype Course = Course(source: string, target: string, way: Option<ChangeDirection>) {
    function Ends(): (sides: set<string>)
      ensures way.Some? ==> |sides| == 1
    {
      match way
      case None => {source, target}
      case Some(Forward) => {target}
      case Some(Backward) => {source}
    }
  }

  /** The record is part of the operation, or what it leaves behind. */
  predicate Leads(c: Course, r: Record) {
    if r.rotation.Some? then
      && r.rotation.value.source == c.source && r.rotation.value.target == c.target
      && (c.way == Some(Forward) ==> From(r, 8))
      && (c.way == Some(Backward) ==> Before(r, 8))
    else r.config in c.Ends()
  }

  /** Everything the store could show, now or after a power loss, leads the same way. */
  predicate Determined(c: Course, j: Journal) {
    && Leads(c, j.current)
    && (j.staged.Some? && j.staged.value.Canonical? ==> Leads(c, j.staged.value.record))
    && (!j.synced ==> Leads(c, j.fallback))
  }

  /** The step is one a run on this course may publish: no revocation once the way is settled. */
  predicate Allows(c: Course, r: Record, n: Record) {
    if r.rotation.Some? then c.way.Some? ==> !Crossing(r, n) else Leads(c, n)
  }

  /** No permitted step leaves the operation, and none but revocation changes the way. */
  lemma StepLeads(c: Course, r: Record, n: Record)
    requires Valid(r) && Leads(c, r) && PermitsIdentity(r, n) && Allows(c, r, n)
    ensures Leads(c, n)
  {
    hide Valid, PermitsIdentity;
    IdentityHistory.StepShape(r, n);
  }

  lemma PublishDetermined(c: Course, j: Journal, n: Record, k: Journal)
    requires Valid(j.current) && Determined(c, j)
    requires PermitsIdentity(j.current, n) && Allows(c, j.current, n) && Publishes(j, n, k)
    ensures Determined(c, k)
  {
    hide Valid, PermitsIdentity, Leads, Allows;
    StepLeads(c, j.current, n);
  }

  class Host {
    /** Whether calls may fail and services may stop or start by themselves. */
    const reliable: bool
    /** The way this run is bound to go, if the store already determines it. */
    ghost const course: Option<Course>
    var w: World
    ghost var trace: seq<Event>
    /** Every world passed through, newest last. */
    ghost var worlds: seq<World>

    ghost predicate Valid()
      reads this
    {
      && worlds != [] && worlds[|worlds| - 1] == w
      && (forall i :: 0 <= i < |worlds| ==> Sound(worlds[i]))
      && Disciplined(trace)
      && (course.Some? ==> Determined(course.value, w.journal))
    }

    constructor (reliable: bool, w: World, ghost course: Option<Course>, ghost trace: seq<Event>)
      requires Sound(w) && Disciplined(trace)
      requires course.Some? ==> Determined(course.value, w.journal)
      ensures Valid() && this.reliable == reliable && this.course == course
      ensures this.w == w && this.trace == trace + [Began]
    {
      this.reliable := reliable;
      this.course := course;
      this.w := w;
      worlds := [w];
      this.trace := trace + [Began];
      new;
      DisciplineExtends(trace, Began);
    }

    method Become(next: World)
      requires Valid() && Sound(next)
      requires course.Some? ==> Determined(course.value, next.journal)
      modifies this`w, this`worlds
      ensures Valid() && w == next && worlds == old(worlds) + [next]
    {
      hide Sound, Disciplined;
      w := next;
      worlds := worlds + [next];
    }

    ghost method Log(e: Event)
      requires Valid()
      requires e.Performed? ==> Belongs(e.effect, e.at) && EffectTimely(trace, e.effect)
      requires e.Attempted? ==>
        PermitsIdentity(e.from, e.to) && Timely(trace, e.from, e.to) && Founded(trace, e.from, e.to, e.replayed)
      modifies this`trace
      ensures Valid() && trace == old(trace) + [e]
      ensures !Breaks(e) ==> forall x :: (Since(old(trace), x) || x == e) ==> Since(trace, x)
    {
      hide Sound, PermitsIdentity, Belongs, Crossing, Completing, InOrder, Determined, Since, EffectTimely, Timely;
      hide Founded;
      DisciplineExtends(trace, e);
      forall x | Since(trace, x) || x == e ensures !Breaks(e) ==> Since(trace + [e], x) {
        SinceGrows(trace, e, x);
      }
      trace := trace + [e];
    }

    /** Any call at all: time passes, and it may fail. */
    method Call() returns (ok: bool)
      requires Valid()
      modifies this`w, this`worlds
      ensures Valid() && Drifts(reliable, old(w), w) && w.journal == old(w).journal
      ensures reliable ==> ok
    {
      if reliable {
        return true;
      }
      hide Disciplined;
      var m: Machine := *;
      if Elapses(w, m) {
        ElapsesKeepsSound(w, m);
        Become(w.(machine := m));
      }
      ok := *;
    }

    /** The visible record and stage; a stage that does not decode fails the read. */
    method ReadSnapshot() returns (s: Result<Snapshot>)
      requires Valid()
      modifies this`w, this`worlds
      ensures Valid() && Drifts(reliable, old(w), w) && w.journal == old(w).journal
      ensures s.Ok? ==> s.value == Visible(w.journal) && w.journal.staged != Some(Torn)
      ensures reliable ==> (s.Ok? <==> w.journal.staged != Some(Torn))
    {
      var ok := Call();
      if !ok || w.journal.staged == Some(Torn) {
        return Err;
      }
      return Ok(Visible(w.journal));
    }

    /** Reestablishes durability of the current record; never promotes a stage. */
    method Synchronize(expected: Record) returns (ok: bool)
      requires Valid()
      modifies this`w, this`worlds
      ensures Valid() && Drifts(reliable, old(w), w)
      ensures ok ==> w.journal.current == expected && w.journal.synced
      ensures reliable && w.journal.current == expected ==> ok
    {
      ok := Call();
      if !ok || w.journal.current != expected {
        return false;
      }
      hide Fits, Backs, Disciplined;
      Become(w.(journal := w.journal.(synced := true)));
      return true;
    }

    method Inspect(r: Record) returns (ok: bool)
      requires Valid()
      modifies this`w, this`worlds
      ensures Valid() && Drifts(reliable, old(w), w) && w.journal == old(w).journal
      ensures ok ==> Inspectable(w.machine, r)
      ensures reliable ==> (ok <==> Inspectable(w.machine, r))
    {
      ok := Call();
      ok := ok && Inspectable(w.machine, r);
    }

    method Configuration() returns (file: Result<string>)
      requires Valid()
      modifies this`w, this`worlds
      ensures Valid() && Drifts(reliable, old(w), w) && w.journal == old(w).journal
      ensures file.Ok? ==> file == Ok(w.machine.file)
      ensures reliable ==> file.Ok?
    {
      var ok := Call();
      file := if ok then Ok(w.machine.file) else Err;
    }

    /**
     Admission of a rotation. The startup directory is found if the start condition is in it, or
     if it stands there empty; the answer is the integration the rotation would have to record.
     */
    method Admit(r: Record, empty: bool) returns (startup: Result<Startup>)
      requires Valid()
      modifies this`w, this`worlds
      ensures Valid() && Drifts(reliable, old(w), w) && w.journal == old(w).journal
      ensures startup.Ok? ==> Admissible(w.machine, r) && startup.value == Admitted(w.machine.dropIn || empty)
      ensures reliable ==> (startup.Ok? <==> Admissible(w.machine, r))
    {
      var ok := Call();
      startup := if ok && Admissible(w.machine, r) then Ok(Admitted(w.machine.dropIn || empty)) else Err;
    }

    /** The proxy start condition is on disk and loaded; serving routes are the host's word. */
    method Routes(r: Record) returns (ok: bool)
      requires Valid()
      modifies this`w, this`worlds, this`trace
      ensures Valid() && Drifts(reliable, old(w), w) && w.journal == old(w).journal
      ensures ok ==> w.machine.dropIn && w.machine.loaded
      ensures trace == if ok then old(trace) + [Routed] else old(trace)
      ensures forall x :: Since(old(trace), x) ==> Since(trace, x)
      ensures ok ==> Since(trace, Routed)
      ensures reliable ==> (ok <==> w.machine.dropIn && w.machine.loaded)
    {
      ok := Call();
      ok := ok && w.machine.dropIn && w.machine.loaded;
      if ok {
        Log(Routed);
      }
    }

    /** A fresh observation that nothing is left running; a record that serves nothing is not asked about it. */
    method Quiescence(r: Record) returns (accepted: bool)
      requires Valid()
      modifies this`w, this`worlds, this`trace
      ensures Valid() && Drifts(reliable, old(w), w) && w.journal == old(w).journal
      ensures accepted ==>
        && Inspectable(w.machine, r)
        && w.machine.proxy.None? && (r.serving.Some? ==> w.machine.subscription.None?)
      ensures trace == if accepted then old(trace) + [Accepted] else old(trace)
      ensures forall x :: Since(old(trace), x) ==> Since(trace, x)
      ensures accepted ==> Since(trace, Accepted)
      ensures reliable ==>
        (accepted <==> Inspectable(w.machine, r)
                       && w.machine.proxy.None? && (r.serving.Some? ==> w.machine.subscription.None?))
    {
      accepted := Call();
      accepted := accepted && Inspectable(w.machine, r)
                  && w.machine.proxy.None? && (r.serving.Some? ==> w.machine.subscription.None?);
      if accepted {
        Log(Accepted);
      }
    }

    method VerifyRunning(r: Record) returns (ok: bool)
      requires Valid()
      modifies this`w, this`worlds, this`trace
      ensures Valid() && Drifts(reliable, old(w), w) && w.journal == old(w).journal
      ensures ok ==> Runs(w.machine, r)
      ensures trace == if ok then old(trace) + [VerifiedRunning] else old(trace)
      ensures forall x :: Since(old(trace), x) ==> Since(trace, x)
      ensures ok ==> Since(trace, VerifiedRunning)
      ensures reliable ==> (ok <==> Runs(w.machine, r))
    {
      ok := Call();
      ok := ok && Runs(w.machine, r);
      if ok {
        Log(VerifiedRunning);
      }
    }

    /**
     Carries out an effect of the current, durable record at its own checkpoint.
     A failure may leave any part of the effect behind.
     */
    method Perform(e: Effect, r: Record, material: Option<string>) returns (ok: bool)
      requires Valid() && w.journal.current == r && w.journal.synced && Clean(w.journal, e)
      requires r.rotation.Some? && Belongs(e, r.rotation.value.checkpoint) && EffectTimely(trace, e)
      modifies this
      ensures Valid() && w.journal == old(w).journal
      ensures trace == old(trace) + [Performed(e, r.rotation.value.checkpoint)] + (if ok then [Succeeded(e)] else [])
      ensures forall x :: Since(old(trace), x) ==> Since(trace, x)
      ensures ok ==> Since(trace, Succeeded(e))
      ensures reliable ==> (ok <==> Admits(e, old(w), material))
      ensures ok ==> exists x :: Drifts(reliable, old(w), x) && x.journal == w.journal
                             && Admits(e, x, material) && w.machine == Applied(e, x.machine, r)
    {
      hide Sound, Disciplined, Partly, Determined, Elapses, InOrder, Since;
      ok := Call();
      ghost var x := w;
      Log(Performed(e, r.rotation.value.checkpoint));
      var fault: bool := *;
      if ok && (reliable || !fault) && Admits(e, w, material) {
        EffectKeepsSound(e, w, Applied(e, w.machine, r));
        Become(w.(machine := Applied(e, w.machine, r)));
        Log(Succeeded(e));
        return true;
      }
      var part: Machine := *;
      if Partly(e, w.machine, r, part) {
        EffectKeepsSound(e, w, part);
        Become(w.(machine := part));
      }
      return false;
    }

    lemma KeepsCourse(next: Record, k: Journal)
      requires Valid() && PermitsIdentity(w.journal.current, next) && Publishes(w.journal, next, k)
      requires course.Some? ==> Allows(course.value, w.journal.current, next)
      ensures course.Some? ==> Determined(course.value, k)
    {
      assert Sound(worlds[|worlds| - 1]);
      hide Disciplined, Backs, Holds, PermitsIdentity, Publishes, Records.Valid;
      if course.Some? {
        PublishDetermined(course.value, w.journal, next, k);
      }
    }

    /** Compare-and-set on the record, as the store promises it. */
    method PublishNext(expected: Record, next: Record, replayed: bool) returns (ok: bool)
      requires Valid() && w.journal.current == expected && w.journal.synced
      requires PermitsIdentity(expected, next) && Timely(trace, expected, next)
      requires Founded(trace, expected, next, replayed)
      requires Backs(w.machine, expected, next)
      requires course.Some? ==> Allows(course.value, expected, next)
      modifies this
      ensures Valid() && trace == old(trace) + [Attempted(expected, next, replayed)]
      ensures reliable ==> w.machine == old(w).machine
      ensures ok ==> w.journal == Journal(next, None, true, next)
      ensures ok ==> old(w).journal.staged in {None, Some(Canonical(next))}
      ensures ok ==> exists x :: Drifts(reliable, old(w), x) && w.machine == x.machine
      ensures (reliable && old(w).journal.staged in {None, Some(Canonical(next))}) ==> ok
    {
      ok := Call();
      hide Sound, Disciplined, PermitsIdentity, Founded;
      Log(Attempted(expected, next, replayed));
      DriftBacks(reliable, old(w), w, next);
      var fault: bool := *;
      if ok && (reliable || !fault) && w.journal.staged in {None, Some(Canonical(next))} {
        KeepsCourse(next, Journal(next, None, true, next));
        PublishKeepsSound(w, next, Journal(next, None, true, next));
        Become(w.(journal := Journal(next, None, true, next)));
        return true;
      }
      var k: Journal := *;
      if !reliable && Publishes(w.journal, next, k) {
        KeepsCourse(next, k);
        PublishKeepsSound(w, next, k);
        Become(w.(journal := k));
      }
      return false;
    }
  }

  lemma DriftBacks(reliable: bool, w: World, x: World, next: Record)
    requires Drifts(reliable, w, x) && Backs(w.machine, w.journal.current, next)
    ensures Backs(x.machine, x.journal.current, next)
  {
  }
}
