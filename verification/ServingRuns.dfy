/**
 What one serve call answers and why it ends: the code it returns, what a sweep
 over its handles does, how a connection is admitted, and that a cancelled call
 always comes to its return.
 */
module ServingRuns {
  import opened Wrappers
  import opened Serving

  // ----- One connection, one start ----------------------------------------------------

  /** A start is refused exactly while another call is active. */
  lemma StartsExactly(m: Module, i: nat)
    requires Inv(m) && i < |m.sessions| && m.sessions[i].pc.Ready?
    ensures Act(Begin(None), m.sessions[i], m).Some?
    ensures var s := Act(Begin(None), m.sessions[i], m).value.0;
      if exists j :: 0 <= j < |m.sessions| && Active(m.sessions[j]) then s.pc == Returned(false, Refused)
      else s.pc == Polling
  {
    hide SessionOk;
  }

  /**
   An accepted connection of a cancelled call, or one that cannot be registered, is shut and ends
   the call. Otherwise it is registered under a new identifier, and refused exactly if eight workers
   are tracked.
   */
  lemma AdmitsExactly(s: Session, m: Module, registered: bool)
    requires Registered(s, m.shut) && s.pc.Admitting?
    ensures Act(Admit(registered), s, m).Some?
    ensures var (t, n) := Act(Admit(registered), s, m).value;
      if s.stop.cancelled || !registered then
        && t == s.(pc := Draining(if s.stop.cancelled then Stopped else Failed))
        && n.shut == m.shut + {s.pc.socket}
      else
        && n == m && t.workers == s.workers && t.tasks == s.tasks
        && (|s.workers| >= 8 ==> t.pc.Refusing?) && (|s.workers| < 8 ==> t.pc.Spawning?)
        && t.pc.socket == s.pc.socket && t.pc.id !in s.stop.sockets
        && t.stop.sockets == s.stop.sockets[t.pc.id := s.pc.socket]
  {
    hide Holder;
  }

  // ----- A sweep -----------------------------------------------------------------------

  /** The steps of a sweep in a row, while no worker moves. */
  function Swept(s: Session): (after: Session)
    requires s.pc.Sweeping?
    decreases |s.workers| - s.pc.index + |s.workers|
  {
    if s.pc.index >= |s.workers| then s
    else
      var t := Act(Sweep, s, Module(true, [], {}, 0)).value.0;
      Swept(t)
  }

  predicate Done(s: Session, w: nat) { w < |s.tasks| && s.tasks[w].phase.Finished? }

  predicate Panicked(s: Session, w: nat) { Done(s, w) && s.tasks[w].phase.panicked }

  /** What a sweep leaves: none finished is kept, no other is dropped, and a panic is remembered. */
  ghost predicate SweptFrom(s: Session, t: Session)
    requires s.pc.Sweeping?
  {
    && t.pc.Sweeping? && t.pc.index >= |t.workers| && t.pc.pending == s.pc.pending
    && t.tasks == s.tasks && t.stop == s.stop && s.joined <= t.joined
    && (forall w :: w in t.workers <==> w in s.workers && !Done(s, w))
    && (forall w :: w in t.joined <==> w in s.joined || (w in s.workers && Done(s, w)))
    && (t.pc.ok <==> s.pc.ok && forall w :: w in s.workers ==> !Panicked(s, w))
  }

  /** The handles before the index have been looked at. */
  predicate Midway(s: Session) {
    s.pc.Sweeping? && forall k :: 0 <= k < |s.workers| && k < s.pc.index ==> !Done(s, s.workers[k])
  }

  lemma SweepStep(s: Session) returns (t: Session)
    requires Tracked(s) && Midway(s) && s.pc.index < |s.workers|
    ensures Act(Sweep, s, Module(true, [], {}, 0)).Some? && t == Act(Sweep, s, Module(true, [], {}, 0)).value.0
    ensures Midway(t) && t.pc.pending == s.pc.pending && t.tasks == s.tasks && t.stop == s.stop
    ensures var w := s.workers[s.pc.index];
      if Done(s, w) then
        && t.joined == s.joined + {w} && (t.pc.ok <==> s.pc.ok && !Panicked(s, w))
        && (forall v :: v in t.workers <==> v in s.workers && v != w)
      else t.workers == s.workers && t.joined == s.joined && t.pc.ok == s.pc.ok && t.pc.index == s.pc.index + 1
  {
    t := Act(Sweep, s, Module(true, [], {}, 0)).value.0;
    Handles(s);
    if Done(s, s.workers[s.pc.index]) {
      SwapMembers(s.workers, s.pc.index);
      SwapRemoveMembers(s.workers, s.pc.index);
    }
    hide SwapRemove, Tracked;
  }

  lemma Handles(s: Session)
    requires Tracked(s)
    ensures forall k, l :: 0 <= k < l < |s.workers| ==> s.workers[k] != s.workers[l]
    ensures forall k :: 0 <= k < |s.workers| ==> s.workers[k] < |s.tasks|
  {
  }

  /** Removing a handle drops it and nothing else. */
  lemma SwapMembers(workers: seq<nat>, i: nat)
    requires i < |workers| && forall k, l :: 0 <= k < l < |workers| ==> workers[k] != workers[l]
    ensures forall v :: v in SwapRemove(workers, i) <==> v in workers && v != workers[i]
  {
    SwapRemoveMembers(workers, i);
    var left, last := SwapRemove(workers, i), |workers| - 1;
    SwapRemoveKeeps(workers, i);
    hide *;
    forall v | v in workers && v != workers[i] ensures v in left {
      var k :| 0 <= k < |workers| && workers[k] == v;
      assert left[if k == last then i else k] == v;
    }
    forall v | v in left ensures v in workers && v != workers[i] {
      var k :| 0 <= k < |left| && left[k] == v;
      assert v == workers[if k == i then last else k];
    }
  }

  /** Once the sweep is over every handle that was finished is joined, and only those. */
  lemma {:induction false} SweepLeaves(s: Session)
    requires s.pc.Sweeping? && Tracked(s) && Midway(s)
    ensures SweptFrom(s, Swept(s))
    decreases |s.workers| - s.pc.index + |s.workers|
  {
    hide *;
    if s.pc.index < |s.workers| {
      var t := SweepStep(s);
      EndedOfSweep(s);
      ActTracked(Sweep, s, Module(true, [], {}, 0));
      StepShrinks(s);
      SweepLeaves(t);
      SweptOnce(s, t, Swept(t));
      SweptNext(s);
    } else {
      AllLooked(s);
      SweptNow(s);
    }
  }

  lemma SweptNext(s: Session)
    requires s.pc.Sweeping? && s.pc.index < |s.workers|
    ensures Swept(s) == Swept(Act(Sweep, s, Module(true, [], {}, 0)).value.0)
  {
    hide Act;
  }

  lemma SweptNow(s: Session)
    requires s.pc.Sweeping? && s.pc.index >= |s.workers|
    ensures Swept(s) == s
  {
  }

  lemma SweptOnce(s: Session, t: Session, u: Session)
    requires s.pc.Sweeping? && t.pc.Sweeping? && s.pc.index < |s.workers| && SweptFrom(t, u)
    requires t.pc.pending == s.pc.pending && t.tasks == s.tasks && t.stop == s.stop
    requires var w := s.workers[s.pc.index];
      if Done(s, w) then
        && t.joined == s.joined + {w} && (t.pc.ok <==> s.pc.ok && !Panicked(s, w))
        && (forall v :: v in t.workers <==> v in s.workers && v != w)
      else t.workers == s.workers && t.joined == s.joined && t.pc.ok == s.pc.ok
    ensures SweptFrom(s, u)
  {
    var w := s.workers[s.pc.index];
    assert w in s.workers;
    SameDone(s, t);
    hide Done, Panicked;
  }

  lemma SameDone(s: Session, t: Session)
    requires t.tasks == s.tasks
    ensures forall w :: (Done(s, w) <==> Done(t, w)) && (Panicked(s, w) <==> Panicked(t, w))
    ensures forall w :: Panicked(s, w) ==> Done(s, w)
  {
  }

  lemma EndedOfSweep(s: Session)
    requires s.pc.Sweeping?
    ensures Ended(s)
  {
  }

  lemma StepShrinks(s: Session)
    requires s.pc.Sweeping? && s.pc.index < |s.workers|
    ensures var t := Act(Sweep, s, Module(true, [], {}, 0)).value.0;
      t.pc.Sweeping? && |t.workers| - t.pc.index + |t.workers| < |s.workers| - s.pc.index + |s.workers|
  {
  }

  lemma AllLooked(s: Session)
    requires Midway(s) && s.pc.index >= |s.workers|
    ensures SweptFrom(s, s)
  {
    assert forall w :: w in s.workers ==> !Done(s, w);
  }

  /** Every sweep of a serve call starts at the first handle: before an accept, and again after one. */
  lemma SweepsWhole(s: Session, m: Module)
    requires Tracked(s)
    ensures s.pc.Polling? ==>
      && Act(Poll, s, m).Some?
      && var t := Act(Poll, s, m).value.0;
         if s.stop.cancelled then t == s.(pc := Draining(Stopped))
         else t.pc.Sweeping? && t.pc.ok && t.pc.pending.None? && SweptFrom(t, Swept(t)) && t.workers == s.workers
    ensures s.pc.Sweeping? && s.pc.index >= |s.workers| && s.pc.ok && s.pc.pending.None? ==>
      && Act(Accept(Some(true)), s, m).Some?
      && var t := Act(Accept(Some(true)), s, m).value.0;
         && t.pc.Sweeping? && t.pc.ok && t.pc.pending == Some(m.nextSocket) && SweptFrom(t, Swept(t))
         && t.workers == s.workers
  {
    if s.pc.Polling? && !s.stop.cancelled {
      SweepLeaves(Act(Poll, s, m).value.0);
    } else if s.pc.Sweeping? && s.pc.index >= |s.workers| && s.pc.ok && s.pc.pending.None? {
      SweepLeaves(Act(Accept(Some(true)), s, m).value.0);
    }
  }

  // ----- What a serve call answers ------------------------------------------------------

  /** Some worker that was joined had panicked. */
  predicate AnyPanic(s: Session) { exists w :: w in s.joined && Panicked(s, w) }

  /**
   How far the answer is decided: c says that somebody has cancelled the session, f that an accept,
   a registration or a spawn has failed.
   */
  predicate Caused(s: Session, c: bool, f: bool) {
    && (s.stop.cancelled && !s.pc.Joining? && !s.pc.Returned? ==> c)
    && match s.pc
       case Sweeping(_, ok, _) => ok == !AnyPanic(s)
       case Draining(code) =>
         (code == Stopped && c && !AnyPanic(s)) || (code == Failed && (AnyPanic(s) || f))
       case Joining(code, ok) =>
         (code == Stopped && c && ok == !AnyPanic(s)) || (code == Failed && (AnyPanic(s) || f))
       case Returned(started, code) =>
         if started then (code == Stopped && c && !AnyPanic(s)) || (code == Failed && (AnyPanic(s) || f))
         else !AnyPanic(s)
       case _ => !AnyPanic(s)
  }

  predicate Troubled(a: Action) { a == Accept(Some(false)) || a == Admit(false) || a == Spawn(false) }

  /** Joining one more handle adds its own panic to those remembered. */
  lemma PanicAdded(s: Session, t: Session, w: nat)
    requires t.tasks == s.tasks && t.joined == s.joined + {w}
    ensures AnyPanic(t) <==> AnyPanic(s) || Panicked(s, w)
  {
    if AnyPanic(s) {
      var v :| v in s.joined && Panicked(s, v);
      assert v in t.joined && Panicked(t, v);
    }
    if Panicked(s, w) {
      assert w in t.joined && Panicked(t, w);
    }
    if AnyPanic(t) {
      var v :| v in t.joined && Panicked(t, v);
      assert v in s.joined ==> Panicked(s, v);
    }
  }

  /** What running workers do, and new ones, leaves the joined as they were. */
  lemma PanicKept(s: Session, t: Session)
    requires t.joined == s.joined && |s.tasks| <= |t.tasks|
    requires forall w :: w in s.joined ==> w < |s.tasks| && t.tasks[w] == s.tasks[w]
    ensures AnyPanic(t) <==> AnyPanic(s)
  {
    if AnyPanic(s) {
      var v :| v in s.joined && Panicked(s, v);
      assert v in t.joined && Panicked(t, v);
    }
    if AnyPanic(t) {
      var v :| v in t.joined && Panicked(t, v);
      assert v in s.joined && Panicked(s, v);
    }
  }

  lemma ActCaused(a: Action, s: Session, m: Module, c: bool, f: bool)
    requires Tracked(s) && Caused(s, c, f) && Act(a, s, m).Some?
    ensures Caused(Act(a, s, m).value.0, c || a.Cancel?, f || Troubled(a))
  {
    var t := Act(a, s, m).value.0;
    JoinedFinished(s);
    if a.Sweep? && s.pc.index < |s.workers| && Done(s, s.workers[s.pc.index]) {
      PanicAdded(s, t, s.workers[s.pc.index]);
    } else if a.Join? && s.workers != [] {
      PanicAdded(s, t, s.workers[0]);
    } else {
      PanicKept(s, t);
    }
    hide AnyPanic, SwapRemove, Tracked;
  }

  lemma JoinedFinished(s: Session)
    requires Tracked(s)
    ensures forall w :: w in s.joined ==> Done(s, w)
    ensures forall k :: 0 <= k < |s.workers| ==> s.workers[k] < |s.tasks|
  {
  }

  /** Somebody cancelled the session of this call before. */
  predicate CancelledBefore(moves: seq<Move>, k: nat, i: nat)
    requires k <= |moves|
  {
    exists j :: 0 <= j < k && moves[j] == Move(i, Cancel)
  }

  predicate TroubledBefore(moves: seq<Move>, k: nat, i: nat)
    requires k <= |moves|
  {
    exists j :: 0 <= j < k && moves[j].session == i && Troubled(moves[j].action)
  }

  lemma {:induction false} RunCaused(states: seq<Module>, moves: seq<Move>, k: nat, i: nat)
    requires Run(states, moves) && k < |states| && i < |states[k].sessions|
    ensures Caused(states[k].sessions[i], CancelledBefore(moves, k, i), TroubledBefore(moves, k, i))
  {
    if k == 0 {
      FreshCaused(states, moves, i);
    } else {
      RunStep(states, moves, k - 1);
      RunKeepsInv(states, moves, k - 1);
      var j, a := moves[k - 1].session, moves[k - 1].action;
      ActFlag(a, states[k - 1].sessions[j], states[k - 1]);
      RunCaused(states, moves, k - 1, i);
      hide Act, Run, Caused, Registered, Ended, Exclusive, Tracked;
      if i == j {
        ActCaused(a, states[k - 1].sessions[i], states[k - 1], CancelledBefore(moves, k - 1, i),
                  TroubledBefore(moves, k - 1, i));
        assert CancelledBefore(moves, k, i) == (CancelledBefore(moves, k - 1, i) || a.Cancel?);
        assert TroubledBefore(moves, k, i) == (TroubledBefore(moves, k - 1, i) || Troubled(a));
      } else {
        assert CancelledBefore(moves, k, i) == CancelledBefore(moves, k - 1, i);
        assert TroubledBefore(moves, k, i) == TroubledBefore(moves, k - 1, i);
      }
    }
  }

  lemma FreshCaused(states: seq<Module>, moves: seq<Move>, i: nat)
    requires Run(states, moves) && i < |states[0].sessions|
    ensures Caused(states[0].sessions[i], false, false)
  {
    hide Steps;
    assert Fresh(states[0].sessions[i]);
  }

  /**
   In every interleaving a call that was started answers Stopped or Failed. Stopped means that
   somebody had cancelled it and that every one of its workers ended without a panic; Failed, that
   a worker panicked or that an accept, a registration or a spawn of its own had failed.
   */
  lemma AnswersExactly(states: seq<Module>, moves: seq<Move>, k: nat, i: nat)
    requires Run(states, moves) && k < |states| && i < |states[k].sessions|
    requires states[k].sessions[i].pc.Returned? && states[k].sessions[i].pc.started
    ensures var s := states[k].sessions[i];
      && s.pc.code in {Stopped, Failed}
      && (forall w :: 0 <= w < |s.tasks| ==> Done(s, w))
      && (s.pc.code == Stopped ==>
            CancelledBefore(moves, k, i) && forall w :: 0 <= w < |s.tasks| ==> !Panicked(s, w))
      && (s.pc.code == Failed ==>
            TroubledBefore(moves, k, i) || exists w :: 0 <= w < |s.tasks| && Panicked(s, w))
  {
    RunCaused(states, moves, k, i);
    RunKeepsInv(states, moves, k);
    var s := states[k].sessions[i];
    AllJoined(s, states[k].shut);
    hide Run, Inv, Panicked, Done, CancelledBefore, TroubledBefore;
    if AnyPanic(s) {
      var w :| w in s.joined && Panicked(s, w);
      assert 0 <= w < |s.tasks| && Panicked(s, w);
    }
  }

  lemma AllJoined(s: Session, shut: set<nat>)
    requires SessionOk(s, shut) && s.pc.Returned?
    ensures forall w :: 0 <= w < |s.tasks| <==> w in s.joined
    ensures forall w :: w in s.joined ==> Done(s, w)
  {
    hide Registered;
  }

  // ----- A cancelled call returns -------------------------------------------------------

  /** What the workers still have to do. */
  function Due(tasks: seq<Task>): (n: nat) {
    if tasks == [] then 0
    else Due(tasks[..|tasks| - 1]) + (match tasks[|tasks| - 1].phase
                                      case Responding => 2
                                      case Closing => 1
                                      case Finished(_) => 0)
  }

  function Minus(a: nat, b: nat): (n: nat) { if a <= b then 0 else a - b }

  /** What the call itself has to do before it returns. */
  function Ahead(s: Session): (n: nat) {
    var n := |s.workers|;
    match s.pc
    case Returned(_, _) => 0
    case Joining(_, _) => 1 + n
    case Draining(_) => 2 + n
    case Polling => 3 + n
    case Ready => 4 + n
    case Refusing(_, _) => 5 + n
    case Spawning(_, _) => 8 + n
    case Admitting(_) => 9 + n
    case Sweeping(i, _, pending) =>
      if pending.Some? then 10 + n + 2 * Minus(n, i) else 11 + 3 * n + Minus(n, i)
  }

  function Measure(s: Session): (n: nat) { Ahead(s) + Due(s.tasks) }

  lemma {:induction false} DueLess(tasks: seq<Task>, w: nat, phase: Phase)
    requires w < |tasks|
    requires (tasks[w].phase.Responding? && phase.Closing?) || (tasks[w].phase.Closing? && phase.Finished?)
    ensures Due(tasks[w := tasks[w].(phase := phase)]) < Due(tasks)
  {
    var after := tasks[w := tasks[w].(phase := phase)];
    if w == |tasks| - 1 {
      assert after[..w] == tasks[..w];
    } else {
      DueLess(tasks[..|tasks| - 1], w, phase);
      assert after[..|tasks| - 1] == tasks[..|tasks| - 1][w := tasks[w].(phase := phase)];
    }
  }

  lemma DueMore(tasks: seq<Task>, t: Task)
    ensures Due(tasks + [t]) <= Due(tasks) + 2
  {
    assert (tasks + [t])[..|tasks|] == tasks;
  }

  /** Every step of a cancelled call or of its workers brings the return nearer. */
  lemma CancelledShrinks(a: Action, s: Session, m: Module)
    requires Act(a, s, m).Some? && s.stop.cancelled && !a.Cancel?
    ensures var t := Act(a, s, m).value.0; t.stop.cancelled && Measure(t) < Measure(s)
  {
    hide *;
    if a.WorkerCloses? || a.WorkerEnds? {
      WorkerShrinks(a, s, m);
    } else if a.Spawn? {
      SpawnShrinks(a, s, m);
    } else {
      ServerShrinks(a, s, m);
    }
  }

  lemma WorkerShrinks(a: Action, s: Session, m: Module)
    requires Act(a, s, m).Some? && s.stop.cancelled && (a.WorkerCloses? || a.WorkerEnds?)
    ensures var t := Act(a, s, m).value.0; t.stop.cancelled && Measure(t) < Measure(s)
  {
    DueLess(s.tasks, a.worker, if a.WorkerCloses? then Closing else Finished(a.panicked));
    hide Due;
  }

  lemma SpawnShrinks(a: Action, s: Session, m: Module)
    requires Act(a, s, m).Some? && s.stop.cancelled && a.Spawn?
    ensures var t := Act(a, s, m).value.0; t.stop.cancelled && Measure(t) < Measure(s)
  {
    DueMore(s.tasks, Task(s.pc.id, s.pc.socket, Responding));
    hide Due;
  }

  lemma ServerShrinks(a: Action, s: Session, m: Module)
    requires Act(a, s, m).Some? && s.stop.cancelled
    requires !a.Cancel? && !a.WorkerCloses? && !a.WorkerEnds? && !a.Spawn?
    ensures var t := Act(a, s, m).value.0; t.stop.cancelled && Measure(t) < Measure(s)
  {
    ServerKeeps(a, s, m);
    hide Due;
  }

  lemma ServerKeeps(a: Action, s: Session, m: Module)
    requires Act(a, s, m).Some? && !a.WorkerCloses? && !a.WorkerEnds? && !a.Spawn?
    ensures Act(a, s, m).value.0.tasks == s.tasks
    ensures a.Sweep? && Act(a, s, m).value.0.workers != s.workers ==>
      |Act(a, s, m).value.0.workers| == |s.workers| - 1
  {
  }

  /** A step that is always possible until the call returns. */
  function Onward(s: Session): (a: Action) {
    match s.pc
    case Ready => Begin(None)
    case Polling => Poll
    case Sweeping(i, ok, pending) => if i >= |s.workers| && ok && pending.None? then Accept(None) else Sweep
    case Admitting(_) => Admit(true)
    case Refusing(_, _) => Refuse
    case Spawning(_, _) => Spawn(true)
    case Draining(_) => CancelForDrain
    case Joining(_, _) =>
      if s.workers == [] then Join
      else
        var w := s.workers[0];
        if w >= |s.tasks| || s.tasks[w].phase.Finished? then Join
        else if s.tasks[w].phase.Responding? then WorkerCloses(w) else WorkerEnds(w, false)
    case Returned(_, _) => Cancel
  }

  lemma NeverStuck(s: Session, m: Module)
    requires Tracked(s) && !s.pc.Returned?
    ensures !Onward(s).Cancel? && Act(Onward(s), s, m).Some?
  {
    hide SwapRemove;
  }

  /** Steps taken by a session, cancelling apart. */
  function Taken(moves: seq<Move>, j: nat, l: nat, i: nat): (n: nat)
    requires j <= l <= |moves|
  {
    if j == l then 0
    else Taken(moves, j, l - 1, i) + (if moves[l - 1].session == i && !moves[l - 1].action.Cancel? then 1 else 0)
  }

  /**
   From the moment it is cancelled a call takes no more steps, its workers' included, than its
   measure, in whatever interleaving; and as long as it has not returned, one is possible.
   */
  lemma {:induction false} CancelledReturns(states: seq<Module>, moves: seq<Move>, j: nat, l: nat, i: nat)
    requires Run(states, moves) && j <= l < |states| && i < |states[j].sessions|
    requires states[j].sessions[i].stop.cancelled
    ensures |states| == |moves| + 1 && i < |states[l].sessions| && states[l].sessions[i].stop.cancelled
    ensures Taken(moves, j, l, i) + Measure(states[l].sessions[i]) <= Measure(states[j].sessions[i])
    ensures !states[l].sessions[i].pc.Returned? ==> exists a: Action, n :: !a.Cancel? && Steps(states[l], i, a, n)
    decreases l
  {
    hide Act, Run, Measure, Ahead, Due, Onward;
    if j < l {
      CancelledReturns(states, moves, j, l - 1, i);
      RunStep(states, moves, l - 1);
      var m, k, a := states[l - 1], moves[l - 1].session, moves[l - 1].action;
      ActFlag(a, m.sessions[k], m);
      if k == i {
        if a.Cancel? {
          CancelKeeps(m.sessions[i], m);
        } else {
          CancelledShrinks(a, m.sessions[i], m);
        }
      }
    } else {
      RunLength(states, moves);
    }
    GoesOn(states, moves, l, i);
  }

  lemma RunLength(states: seq<Module>, moves: seq<Move>)
    requires Run(states, moves)
    ensures |states| == |moves| + 1
  {
    hide Steps, Init;
  }

  lemma CancelKeeps(s: Session, m: Module)
    ensures Act(Cancel, s, m).Some?
    ensures Act(Cancel, s, m).value.0 == s.(stop := Cancelled(s.stop))
    ensures Measure(Act(Cancel, s, m).value.0) == Measure(s)
  {
    hide Due;
  }

  lemma GoesOn(states: seq<Module>, moves: seq<Move>, l: nat, i: nat)
    requires Run(states, moves) && l < |states| && i < |states[l].sessions|
    ensures !states[l].sessions[i].pc.Returned? ==> exists a: Action, n :: !a.Cancel? && Steps(states[l], i, a, n)
  {
    RunKeepsInv(states, moves, l);
    var m := states[l];
    var s := m.sessions[i];
    if !s.pc.Returned? {
      NeverStuck(s, m);
      var (t, n) := Act(Onward(s), s, m).value;
      assert Steps(m, i, Onward(s), n.(sessions := m.sessions[i := t]));
    }
    hide Run, Act;
  }
}
