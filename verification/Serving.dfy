/**
 Concurrent serving as a state machine: any number of serve calls on one module,
 their workers, and anybody cancelling, interleaved step by step. Locked sections
 of the source are single steps.
 */
module Serving {
  import opened Wrappers

  const MAX_WORKERS: nat := 8

  datatype Code = Refused | Stopped | Failed

  /** One session's stop handle: what is registered under which identifier. */
  datatype Stop = Stop(cancelled: bool, nextId: nat, sockets: map<nat, nat>)

  datatype Phase = Responding | Closing | Finished(panicked: bool)

  datatype Task = Task(id: nat, socket: nat, phase: Phase)

  datatype Pc =
    | Ready
    | Polling
    | Sweeping(index: nat, ok: bool, pending: Option<nat>)
    | Admitting(socket: nat)
    | Refusing(id: nat, socket: nat)
    | Spawning(id: nat, socket: nat)
    | Draining(code: Code)
    | Joining(code: Code, ok: bool)
    | Returned(started: bool, code: Code)

  /** A serve call. Handles index its tasks; joined ones are no longer tracked. */
  datatype Session = Session(pc: Pc, workers: seq<nat>, tasks: seq<Task>, joined: set<nat>, stop: Stop)

  datatype Module = Module(running: bool, sessions: seq<Session>, shut: set<nat>, nextSocket: nat)

  // ----- Sweeping finished workers --------------------------------------------------

  /** Removes by moving the last handle into the gap. */
  function SwapRemove(workers: seq<nat>, i: nat): (left: seq<nat>)
    requires i < |workers|
  {
    if i == |workers| - 1 then workers[..i] else workers[i := workers[|workers| - 1]][..|workers| - 1]
  }

  lemma SwapRemoveKeeps(workers: seq<nat>, i: nat)
    requires i < |workers|
    ensures multiset(SwapRemove(workers, i)) == multiset(workers) - multiset{workers[i]}
    ensures |SwapRemove(workers, i)| == |workers| - 1
    ensures forall k :: 0 <= k < i ==> SwapRemove(workers, i)[k] == workers[k]
  {
    var last := |workers| - 1;
    assert workers == workers[..last] + [workers[last]];
    if i < last {
      var moved := workers[i := workers[last]];
      assert moved == moved[..last] + [workers[last]];
      assert multiset(moved) == multiset(workers) - multiset{workers[i]} + multiset{workers[last]};
    }
  }

  lemma MovedToJoined(left: seq<nat>, i: nat, joined: seq<nat>)
    requires i < |left|
    ensures multiset(SwapRemove(left, i)) + multiset(joined + [left[i]]) == multiset(left) + multiset(joined)
    ensures forall k :: 0 <= k < |left| - 1 ==>
      SwapRemove(left, i)[k] == left[k] || SwapRemove(left, i)[k] == left[|left| - 1]
  {
    SwapRemoveKeeps(left, i);
    assert left[i] in multiset(left);
  }

  /** One sweep over handles whose finished state is given: none is lost, none finished is kept. */
  method JoinFinished(workers: seq<nat>, tasks: seq<Task>) returns (left: seq<nat>, joined: seq<nat>, success: bool)
    requires forall k :: 0 <= k < |workers| ==> workers[k] < |tasks|
    ensures multiset(left) + multiset(joined) == multiset(workers)
    ensures forall w :: w in left ==> w < |tasks| && !tasks[w].phase.Finished?
    ensures forall w :: w in joined ==> w < |tasks| && tasks[w].phase.Finished?
    ensures success <==> forall w :: w in joined ==> !tasks[w].phase.panicked
  {
    hide SwapRemove;
    left, joined, success := workers, [], true;
    var index := 0;
    while index < |left|
      invariant 0 <= index <= |left|
      invariant multiset(left) + multiset(joined) == multiset(workers)
      invariant forall k :: 0 <= k < |left| ==> left[k] < |tasks|
      invariant forall k :: 0 <= k < index ==> !tasks[left[k]].phase.Finished?
      invariant forall w :: w in joined ==> w < |tasks| && tasks[w].phase.Finished?
      invariant success <==> forall w :: w in joined ==> !tasks[w].phase.panicked
      decreases |left| - index
    {
      var w := left[index];
      if tasks[w].phase.Finished? {
        SwapRemoveKeeps(left, index);
        MovedToJoined(left, index, joined);
        left := SwapRemove(left, index);
        joined := joined + [w];
        success := success && !tasks[w].phase.panicked;
      } else {
        index := index + 1;
      }
    }
  }

  // ----- Steps of one session -------------------------------------------------------

  predicate Active(s: Session) { !s.pc.Ready? && !s.pc.Returned? }

  /** Dropping a registered connection: shut the socket down, then forget it. */
  function Forget(stop: Stop, id: nat): (after: Stop) { stop.(sockets := stop.sockets - {id}) }

  function Register(stop: Stop, socket: nat): (after: Stop) {
    stop.(nextId := stop.nextId + 1, sockets := stop.sockets[stop.nextId := socket])
  }

  function Cancelled(stop: Stop): (after: Stop) { stop.(cancelled := true) }

  datatype Action =
    | Begin(refused: Option<Code>)
    | Poll
    | Sweep
    | Accept(outcome: Option<bool>)
    | Admit(registered: bool)
    | Refuse
    | Spawn(spawned: bool)
    | CancelForDrain
    | Join
    | WorkerCloses(worker: nat)
    | WorkerEnds(worker: nat, panicked: bool)
    | Cancel

  /** What an action does to its session, the shut sockets, and the running flag; None if not enabled. */
  function Act(a: Action, s: Session, m: Module): (found: Option<(Session, Module)>) {
    match a
    case Begin(refused) =>
      if !s.pc.Ready? then None
      else if refused.Some? then Some((s.(pc := Returned(false, refused.value)), m))
      else if m.running then Some((s.(pc := Returned(false, Refused)), m))
      else Some((s.(pc := Polling), m.(running := true)))
    case Poll =>
      if !s.pc.Polling? then None
      else Some((s.(pc := if s.stop.cancelled then Draining(Stopped) else Sweeping(0, true, None)), m))
    case Sweep =>
      if !s.pc.Sweeping? then None
      else if s.pc.index < |s.workers| then
        var w := s.workers[s.pc.index];
        if w < |s.tasks| && s.tasks[w].phase.Finished? then
          Some((s.(workers := SwapRemove(s.workers, s.pc.index), joined := s.joined + {w},
                   pc := Sweeping(s.pc.index, s.pc.ok && !s.tasks[w].phase.panicked, s.pc.pending)), m))
        else Some((s.(pc := Sweeping(s.pc.index + 1, s.pc.ok, s.pc.pending)), m))
      else if !s.pc.ok then
        Some((s.(pc := Draining(Failed)),
              if s.pc.pending.Some? then m.(shut := m.shut + {s.pc.pending.value}) else m))
      else if s.pc.pending.Some? then Some((s.(pc := Admitting(s.pc.pending.value)), m))
      else None
    case Accept(outcome) =>
      if !s.pc.Sweeping? || s.pc.index < |s.workers| || !s.pc.ok || s.pc.pending.Some? then None
      else if outcome.None? then Some((s.(pc := Polling), m))
      else if outcome.value then
        Some((s.(pc := Sweeping(0, true, Some(m.nextSocket))), m.(nextSocket := m.nextSocket + 1)))
      else Some((s.(pc := Draining(Failed)), m))
    case Admit(registered) =>
      if !s.pc.Admitting? then None
      else if s.stop.cancelled then
        Some((s.(pc := Draining(Stopped)), m.(shut := m.shut + {s.pc.socket})))
      else if !registered then
        Some((s.(pc := Draining(Failed)), m.(shut := m.shut + {s.pc.socket})))
      else
        Some((s.(stop := Register(s.stop, s.pc.socket),
                 pc := if |s.workers| >= MAX_WORKERS then Refusing(s.stop.nextId, s.pc.socket)
                       else Spawning(s.stop.nextId, s.pc.socket)), m))
    case Refuse =>
      if !s.pc.Refusing? then None
      else Some((s.(pc := Polling, stop := Forget(s.stop, s.pc.id)), m.(shut := m.shut + {s.pc.socket})))
    case Spawn(spawned) =>
      if !s.pc.Spawning? then None
      else if spawned then
        Some((s.(pc := Polling, workers := s.workers + [|s.tasks|],
                 tasks := s.tasks + [Task(s.pc.id, s.pc.socket, Responding)]), m))
      else
        Some((s.(pc := Draining(Failed), stop := Forget(s.stop, s.pc.id)), m.(shut := m.shut + {s.pc.socket})))
    case CancelForDrain =>
      if !s.pc.Draining? then None
      else Some((s.(pc := Joining(s.pc.code, true), stop := Cancelled(s.stop)),
                 m.(shut := m.shut + s.stop.sockets.Values)))
    case Join =>
      if !s.pc.Joining? then None
      else if s.workers == [] then
        Some((s.(pc := Returned(true, if s.pc.ok then s.pc.code else Failed)), m.(running := false)))
      else
        var w := s.workers[0];
        if w < |s.tasks| && s.tasks[w].phase.Finished? then
          Some((s.(workers := s.workers[1..], joined := s.joined + {w},
                   pc := Joining(s.pc.code, s.pc.ok && !s.tasks[w].phase.panicked)), m))
        else None
    case WorkerCloses(w) =>
      if w >= |s.tasks| || !s.tasks[w].phase.Responding? then None
      else Some((s.(tasks := s.tasks[w := s.tasks[w].(phase := Closing)]),
                 m.(shut := m.shut + {s.tasks[w].socket})))
    case WorkerEnds(w, panicked) =>
      if w >= |s.tasks| || !s.tasks[w].phase.Closing? then None
      else Some((s.(tasks := s.tasks[w := s.tasks[w].(phase := Finished(panicked))],
                    stop := Forget(s.stop, s.tasks[w].id)), m))
    case Cancel =>
      Some((s.(stop := Cancelled(s.stop)), m.(shut := m.shut + s.stop.sockets.Values)))
  }

  /** Some session takes one enabled step. */
  predicate Steps(m: Module, i: nat, a: Action, n: Module) {
    && i < |m.sessions|
    && Act(a, m.sessions[i], m).Some?
    && n == Act(a, m.sessions[i], m).value.1.(sessions := m.sessions[i := Act(a, m.sessions[i], m).value.0])
  }

  predicate Fresh(s: Session) {
    s == Session(Ready, [], [], {}, Stop(false, 0, map[]))
  }

  predicate Init(m: Module) {
    !m.running && m.shut == {} && forall i :: 0 <= i < |m.sessions| ==> Fresh(m.sessions[i])
  }

  // ----- The invariant --------------------------------------------------------------

  /** Handles name tasks, none twice; every spawned worker is tracked or joined, never both. */
  predicate Tracked(s: Session) {
    && |s.workers| <= MAX_WORKERS
    && (forall k :: 0 <= k < |s.workers| ==> s.workers[k] < |s.tasks| && s.workers[k] !in s.joined)
    && (forall k, l :: 0 <= k < l < |s.workers| ==> s.workers[k] != s.workers[l])
    && (forall w :: w in s.joined ==> w < |s.tasks| && s.tasks[w].phase.Finished?)
    && (forall w :: 0 <= w < |s.tasks| ==> w in s.workers || w in s.joined)
  }

  /** A registered connection and who holds it. */
  predicate Holder(s: Session, id: nat, socket: nat) {
    || ((s.pc.Refusing? || s.pc.Spawning?) && s.pc.id == id && s.pc.socket == socket)
    || exists w :: 0 <= w < |s.tasks| && HeldBy(s.tasks[w], id, socket)
  }

  predicate HeldBy(t: Task, id: nat, socket: nat) { !t.phase.Finished? && t.id == id && t.socket == socket }

  /** Registered exactly while held, each under its own identifier; all shut once cancelled. */
  predicate Registered(s: Session, shut: set<nat>) {
    && (forall id :: id in s.stop.sockets ==> id < s.stop.nextId && Holder(s, id, s.stop.sockets[id]))
    && (forall w :: 0 <= w < |s.tasks| ==> s.tasks[w].id < s.stop.nextId)
    && (forall w :: 0 <= w < |s.tasks| && !s.tasks[w].phase.Finished? ==>
          s.tasks[w].id in s.stop.sockets && s.stop.sockets[s.tasks[w].id] == s.tasks[w].socket)
    && (forall v, w :: 0 <= v < w < |s.tasks| ==> s.tasks[v].id != s.tasks[w].id)
    && (s.pc.Refusing? || s.pc.Spawning? ==>
          && s.pc.id in s.stop.sockets && s.stop.sockets[s.pc.id] == s.pc.socket
          && forall w :: 0 <= w < |s.tasks| ==> s.tasks[w].id != s.pc.id)
    && (s.stop.cancelled ==> forall id :: id in s.stop.sockets ==> s.stop.sockets[id] in shut)
  }

  predicate Ended(s: Session) {
    && (s.pc.Spawning? ==> |s.workers| < MAX_WORKERS)
    && (s.pc.Joining? ==> s.stop.cancelled)
    && (s.pc.Ready? ==> s.tasks == [] && s.workers == [])
    && (s.pc.Returned? ==> s.workers == [] && (!s.pc.started ==> s.tasks == []))
  }

  predicate SessionOk(s: Session, shut: set<nat>) { Tracked(s) && Registered(s, shut) && Ended(s) }

  /** At most one serve is between its start and its return, and the flag says whether one is. */
  predicate Exclusive(m: Module) {
    && (m.running ==> exists i :: 0 <= i < |m.sessions| && Active(m.sessions[i]))
    && (forall i :: 0 <= i < |m.sessions| && Active(m.sessions[i]) ==> m.running)
    && (forall i, j :: 0 <= i < j < |m.sessions| ==> !(Active(m.sessions[i]) && Active(m.sessions[j])))
  }

  predicate Inv(m: Module) {
    Exclusive(m) && forall i :: 0 <= i < |m.sessions| ==> SessionOk(m.sessions[i], m.shut)
  }

  // ----- Every step keeps the invariant ---------------------------------------------

  lemma SwapRemoveMembers(workers: seq<nat>, i: nat)
    requires i < |workers|
    ensures forall k :: 0 <= k < |workers| - 1 ==>
      SwapRemove(workers, i)[k] == (if k == i then workers[|workers| - 1] else workers[k])
  {
  }

  /** Joining the handle at one place moves exactly that worker from tracked to joined. */
  lemma SweepTracked(s: Session, i: nat)
    requires Tracked(s) && i < |s.workers| && s.tasks[s.workers[i]].phase.Finished?
    ensures Tracked(s.(workers := SwapRemove(s.workers, i), joined := s.joined + {s.workers[i]}))
  {
    SwapRemoveMembers(s.workers, i);
    var left := SwapRemove(s.workers, i);
    var last := |s.workers| - 1;
    forall w | 0 <= w < |s.tasks| && w in s.workers && w != s.workers[i] ensures w in left {
      var k :| 0 <= k < |s.workers| && s.workers[k] == w;
      assert left[if k == last then i else k] == w;
    }
    forall k, l | 0 <= k < l < |left| ensures left[k] != left[l] {
      assert left[k] == s.workers[if k == i then last else k];
      assert left[l] == s.workers[if l == i then last else l];
    }
    forall k | 0 <= k < |left| ensures left[k] < |s.tasks| && left[k] !in s.joined + {s.workers[i]} {
      assert left[k] == s.workers[if k == i then last else k];
    }
    hide SwapRemove;
  }

  lemma JoinTracked(s: Session)
    requires Tracked(s) && s.workers != [] && s.tasks[s.workers[0]].phase.Finished?
    ensures Tracked(s.(workers := s.workers[1..], joined := s.joined + {s.workers[0]}))
  {
    forall w | 0 <= w < |s.tasks| && w in s.workers && w != s.workers[0] ensures w in s.workers[1..] {
      var k :| 0 <= k < |s.workers| && s.workers[k] == w;
      assert s.workers[1..][k - 1] == w;
    }
  }

  lemma SpawnTracked(s: Session, t: Task)
    requires Tracked(s) && |s.workers| < MAX_WORKERS
    ensures Tracked(s.(workers := s.workers + [|s.tasks|], tasks := s.tasks + [t]))
  {
    var u := s.(workers := s.workers + [|s.tasks|], tasks := s.tasks + [t]);
    forall w | 0 <= w < |u.tasks| ensures w in u.workers || w in u.joined {
      if w == |s.tasks| {
        assert u.workers[|s.workers|] == w;
      } else if w in s.workers {
        var k :| 0 <= k < |s.workers| && s.workers[k] == w;
        assert u.workers[k] == w;
      }
    }
  }

  lemma PhaseTracked(s: Session, w: nat, phase: Phase)
    requires Tracked(s) && w < |s.tasks| && !s.tasks[w].phase.Finished?
    ensures Tracked(s.(tasks := s.tasks[w := s.tasks[w].(phase := phase)]))
  {
  }

  lemma SameTracked(s: Session, t: Session)
    requires Tracked(s) && t.workers == s.workers && t.tasks == s.tasks && t.joined == s.joined
    ensures Tracked(t)
  {
  }

  /** Only sweeping, joining, spawning and the workers themselves change what is tracked. */
  lemma HandlesKept(a: Action, s: Session, m: Module)
    requires Act(a, s, m).Some? && !a.Spawn? && !a.WorkerCloses? && !a.WorkerEnds?
    requires a.Sweep? ==> s.pc.index >= |s.workers| || s.workers[s.pc.index] >= |s.tasks|
                          || !s.tasks[s.workers[s.pc.index]].phase.Finished?
    requires a.Join? ==> s.workers == []
    ensures var t := Act(a, s, m).value.0; t.workers == s.workers && t.tasks == s.tasks && t.joined == s.joined
  {
    hide SwapRemove;
  }

  lemma ActTracked(a: Action, s: Session, m: Module)
    requires Tracked(s) && Ended(s) && Act(a, s, m).Some?
    ensures Tracked(Act(a, s, m).value.0)
  {
    var t := Act(a, s, m).value.0;
    if a.Sweep? && s.pc.index < |s.workers| && s.tasks[s.workers[s.pc.index]].phase.Finished? {
      SweepTracked(s, s.pc.index);
      hide Tracked, SwapRemove;
      SameTracked(s.(workers := SwapRemove(s.workers, s.pc.index), joined := s.joined + {s.workers[s.pc.index]}), t);
    } else if a.Join? && s.workers != [] {
      JoinTracked(s);
      SameTracked(s.(workers := s.workers[1..], joined := s.joined + {s.workers[0]}), t);
    } else if a.Spawn? {
      if a.spawned {
        var task := Task(s.pc.id, s.pc.socket, Responding);
        SpawnTracked(s, task);
        SameTracked(s.(workers := s.workers + [|s.tasks|], tasks := s.tasks + [task]), t);
      } else {
        SameTracked(s, t);
      }
    } else if a.WorkerCloses? {
      PhaseTracked(s, a.worker, Closing);
      SameTracked(s.(tasks := s.tasks[a.worker := s.tasks[a.worker].(phase := Closing)]), t);
    } else if a.WorkerEnds? {
      PhaseTracked(s, a.worker, Finished(a.panicked));
      SameTracked(s.(tasks := s.tasks[a.worker := s.tasks[a.worker].(phase := Finished(a.panicked))]), t);
    } else {
      HandlesKept(a, s, m);
      hide Act;
      SameTracked(s, t);
    }
  }

  lemma ActEnded(a: Action, s: Session, m: Module)
    requires Tracked(s) && Ended(s) && Act(a, s, m).Some?
    ensures Ended(Act(a, s, m).value.0)
  {
  }

  /** The holders of one session can be matched task by task in another. */
  lemma HolderMoves(s: Session, t: Session, id: nat, socket: nat)
    requires Holder(s, id, socket)
    requires (s.pc.Refusing? || s.pc.Spawning?) && s.pc.id == id ==> t.pc == s.pc
    requires forall w :: 0 <= w < |s.tasks| && HeldBy(s.tasks[w], id, socket) ==>
      w < |t.tasks| && HeldBy(t.tasks[w], id, socket)
    ensures Holder(t, id, socket)
  {
    if !((s.pc.Refusing? || s.pc.Spawning?) && s.pc.id == id && s.pc.socket == socket) {
      var w :| 0 <= w < |s.tasks| && HeldBy(s.tasks[w], id, socket);
      assert HeldBy(t.tasks[w], id, socket);
    }
  }

  lemma AdmitRegistered(s: Session, m: Module, registered: bool)
    requires Registered(s, m.shut) && Act(Admit(registered), s, m).Some?
    ensures Registered(Act(Admit(registered), s, m).value.0, Act(Admit(registered), s, m).value.1.shut)
  {
    var t := Act(Admit(registered), s, m).value.0;
    forall id | id in t.stop.sockets ensures Holder(t, id, t.stop.sockets[id]) {
      if id in s.stop.sockets {
        HolderMoves(s, t, id, s.stop.sockets[id]);
      }
    }
  }

  lemma ForgetRegistered(s: Session, shut: set<nat>)
    requires Registered(s, shut) && (s.pc.Refusing? || s.pc.Spawning?)
    ensures forall pc: Pc :: !pc.Refusing? && !pc.Spawning? ==>
      Registered(s.(pc := pc, stop := Forget(s.stop, s.pc.id)), shut + {s.pc.socket})
  {
    forall pc: Pc | !pc.Refusing? && !pc.Spawning?
      ensures Registered(s.(pc := pc, stop := Forget(s.stop, s.pc.id)), shut + {s.pc.socket})
    {
      var t := s.(pc := pc, stop := Forget(s.stop, s.pc.id));
      forall id | id in t.stop.sockets ensures Holder(t, id, t.stop.sockets[id]) {
        HolderMoves(s, t, id, s.stop.sockets[id]);
      }
    }
  }

  lemma SpawnRegistered(s: Session, m: Module, spawned: bool)
    requires Registered(s, m.shut) && Act(Spawn(spawned), s, m).Some?
    ensures Registered(Act(Spawn(spawned), s, m).value.0, Act(Spawn(spawned), s, m).value.1.shut)
  {
    var t := Act(Spawn(spawned), s, m).value.0;
    if spawned {
      assert HeldBy(t.tasks[|s.tasks|], s.pc.id, s.pc.socket);
      forall id | id in t.stop.sockets ensures Holder(t, id, t.stop.sockets[id]) {
        if id == s.pc.id {
          assert Holder(t, id, s.pc.socket);
        } else {
          HolderMoves(s, t, id, s.stop.sockets[id]);
        }
      }
    } else {
      ForgetRegistered(s, m.shut);
    }
  }

  lemma ClosesRegistered(s: Session, shut: set<nat>, w: nat)
    requires Registered(s, shut) && w < |s.tasks| && s.tasks[w].phase.Responding?
    ensures Registered(s.(tasks := s.tasks[w := s.tasks[w].(phase := Closing)]), shut + {s.tasks[w].socket})
  {
    var t := s.(tasks := s.tasks[w := s.tasks[w].(phase := Closing)]);
    forall id | id in t.stop.sockets ensures Holder(t, id, t.stop.sockets[id]) {
      HolderMoves(s, t, id, s.stop.sockets[id]);
    }
  }

  lemma EndsRegistered(s: Session, shut: set<nat>, w: nat, panicked: bool)
    requires Registered(s, shut) && w < |s.tasks| && s.tasks[w].phase.Closing?
    ensures Registered(s.(tasks := s.tasks[w := s.tasks[w].(phase := Finished(panicked))],
                          stop := Forget(s.stop, s.tasks[w].id)), shut)
  {
    var t := s.(tasks := s.tasks[w := s.tasks[w].(phase := Finished(panicked))],
                stop := Forget(s.stop, s.tasks[w].id));
    forall id | id in t.stop.sockets ensures Holder(t, id, t.stop.sockets[id]) {
      HolderMoves(s, t, id, s.stop.sockets[id]);
    }
  }

  lemma QuietRegistered(a: Action, s: Session, m: Module)
    requires Registered(s, m.shut) && Act(a, s, m).Some?
    requires !a.Admit? && !a.Refuse? && !a.Spawn? && !a.WorkerCloses? && !a.WorkerEnds?
    ensures Registered(Act(a, s, m).value.0, Act(a, s, m).value.1.shut)
  {
    var t, n := Act(a, s, m).value.0, Act(a, s, m).value.1;
    QuietKeeps(a, s, m);
    forall id | id in t.stop.sockets ensures Holder(t, id, t.stop.sockets[id]) {
      HolderMoves(s, t, id, s.stop.sockets[id]);
    }
    hide Act, Holder;
  }

  /** Everything else leaves tasks and registrations alone, and cancelling shuts what is registered. */
  lemma QuietKeeps(a: Action, s: Session, m: Module)
    requires Act(a, s, m).Some?
    requires !a.Admit? && !a.Refuse? && !a.Spawn? && !a.WorkerCloses? && !a.WorkerEnds?
    ensures var t, n := Act(a, s, m).value.0, Act(a, s, m).value.1;
      && t.tasks == s.tasks && t.stop.sockets == s.stop.sockets && t.stop.nextId == s.stop.nextId
      && m.shut <= n.shut
      && (s.pc.Refusing? || s.pc.Spawning? ==> t.pc == s.pc)
      && (t.pc.Refusing? || t.pc.Spawning? ==> t.pc == s.pc)
      && (t.stop.cancelled ==> s.stop.cancelled || s.stop.sockets.Values <= n.shut)
  {
    hide SwapRemove;
  }

  lemma ActRegistered(a: Action, s: Session, m: Module)
    requires Tracked(s) && Registered(s, m.shut) && Ended(s) && Act(a, s, m).Some?
    ensures Registered(Act(a, s, m).value.0, Act(a, s, m).value.1.shut)
  {
    match a {
      case Admit(registered) =>
        AdmitRegistered(s, m, registered);
      case Refuse =>
        ForgetRegistered(s, m.shut);
      case Spawn(spawned) =>
        SpawnRegistered(s, m, spawned);
      case WorkerCloses(w) =>
        ClosesRegistered(s, m.shut, w);
      case WorkerEnds(w, panicked) =>
        EndsRegistered(s, m.shut, w, panicked);
      case _ =>
        QuietRegistered(a, s, m);
    }
  }

  /** A step changes the running flag only at a session's own start and return. */
  lemma ActFlag(a: Action, s: Session, m: Module)
    requires Act(a, s, m).Some?
    ensures var t, n := Act(a, s, m).value.0, Act(a, s, m).value.1;
      && m.shut <= n.shut && n.sessions == m.sessions
      && (!Active(s) && Active(t) ==> !m.running && n.running)
      && (Active(s) && !Active(t) ==> !n.running)
      && (Active(s) == Active(t) ==> n.running == m.running)
  {
    hide SwapRemove;
  }

  lemma StepExclusive(m: Module, i: nat, a: Action, n: Module)
    requires Exclusive(m) && Steps(m, i, a, n)
    ensures Exclusive(n)
  {
    ActFlag(a, m.sessions[i], m);
    var s, t := m.sessions[i], n.sessions[i];
    if n.running {
      if Active(t) {
      } else {
        var k :| 0 <= k < |m.sessions| && Active(m.sessions[k]);
        assert k != i && Active(n.sessions[k]);
      }
    }
    hide Act;
  }

  lemma ShutGrows(s: Session, before: set<nat>, after: set<nat>)
    requires SessionOk(s, before) && before <= after
    ensures SessionOk(s, after)
  {
  }

  /** The invariant is inductive. */
  lemma StepKeepsInv(m: Module, i: nat, a: Action, n: Module)
    requires Inv(m) && Steps(m, i, a, n)
    ensures Inv(n)
  {
    StepExclusive(m, i, a, n);
    ActFlag(a, m.sessions[i], m);
    ActTracked(a, m.sessions[i], m);
    ActEnded(a, m.sessions[i], m);
    ActRegistered(a, m.sessions[i], m);
    hide Act, Tracked, Registered, Ended, Exclusive;
    forall k | 0 <= k < |n.sessions| ensures SessionOk(n.sessions[k], n.shut) {
      if k != i {
        ShutGrows(m.sessions[k], m.shut, n.shut);
      }
    }
  }

  // ----- Every interleaving ---------------------------------------------------------

  datatype Move = Move(session: nat, action: Action)

  /** A run: any moves of any sessions, in any order. */
  predicate Run(states: seq<Module>, moves: seq<Move>) {
    && |states| == |moves| + 1 && Init(states[0])
    && forall k :: 0 <= k < |moves| ==> Steps(states[k], moves[k].session, moves[k].action, states[k + 1])
  }

  lemma InitInv(m: Module)
    requires Init(m)
    ensures Inv(m)
  {
  }

  lemma {:induction false} RunKeepsInv(states: seq<Module>, moves: seq<Move>, k: nat)
    requires Run(states, moves) && k < |states|
    ensures Inv(states[k])
  {
    hide Inv, Init, Steps;
    if k == 0 {
      InitInv(states[0]);
    } else {
      RunKeepsInv(states, moves, k - 1);
      assert Steps(states[k - 1], moves[k - 1].session, moves[k - 1].action, states[k]);
      StepKeepsInv(states[k - 1], moves[k - 1].session, moves[k - 1].action, states[k]);
    }
  }

  /** The workers of a session that are still running. */
  function Live(s: Session): (members: set<nat>) { set w | 0 <= w < |s.tasks| && !s.tasks[w].phase.Finished? }

  lemma LiveIsTracked(s: Session)
    requires Tracked(s)
    ensures |Live(s)| <= |s.workers|
    ensures forall w :: w in Live(s) ==> w in s.workers
  {
    var tracked := set w | w in s.workers;
    assert Live(s) <= tracked;
    SeqSetSize(s.workers, tracked);
    SubsetSize(Live(s), tracked);
  }

  lemma SeqSetSize(ws: seq<nat>, members: set<nat>)
    requires members == set w | w in ws
    ensures |members| <= |ws|
  {
    if ws != [] {
      var rest := set w | w in ws[1..];
      SeqSetSize(ws[1..], rest);
      assert ws == [ws[0]] + ws[1..];
      assert members == rest + {ws[0]};
    }
  }

  /**
   Main result, at every moment of every interleaving: at most one serve is active,
   no session has more than eight live workers or loses one, everything registered
   is shut once cancelled, and a returned serve has left nothing behind.
   */
  lemma ServingIsBounded(states: seq<Module>, moves: seq<Move>, k: nat, i: nat)
    requires Run(states, moves) && k < |states| && i < |states[k].sessions|
    ensures var m := states[k];
      var s := m.sessions[i];
      && |Live(s)| <= MAX_WORKERS
      && (forall w :: 0 <= w < |s.tasks| ==> (w in s.workers) != (w in s.joined))
      && (s.stop.cancelled ==> forall id :: id in s.stop.sockets ==> s.stop.sockets[id] in m.shut)
      && (Active(s) ==> forall j :: 0 <= j < |m.sessions| && j != i ==> !Active(m.sessions[j]))
      && (s.pc.Returned? ==> s.workers == [] && Live(s) == {} && s.stop.sockets == map[])
  {
    RunKeepsInv(states, moves, k);
    var m := states[k];
    var s := m.sessions[i];
    LiveIsTracked(s);
    if s.pc.Returned? {
      ReturnedIsEmpty(s, m.shut);
    }
    hide Registered, Ended, Run;
  }

  lemma ReturnedIsEmpty(s: Session, shut: set<nat>)
    requires SessionOk(s, shut) && s.pc.Returned?
    ensures Live(s) == {} && s.stop.sockets == map[]
  {
    assert forall id :: id !in s.stop.sockets;
  }

  /** Once a session is cancelled it stays so, and nothing more is ever registered with it. */
  lemma NothingRegisteredAfterCancel(m: Module, i: nat, a: Action, n: Module, j: nat)
    requires Steps(m, i, a, n) && j < |m.sessions| && m.sessions[j].stop.cancelled
    ensures n.sessions[j].stop.cancelled
    ensures n.sessions[j].stop.sockets.Keys <= m.sessions[j].stop.sockets.Keys
  {
    hide SwapRemove;
  }

  // ----- What becomes of every socket -------------------------------------------------

  /** A worker past its response has shut its socket. */
  predicate Closed(s: Session, shut: set<nat>) {
    forall w :: 0 <= w < |s.tasks| && !s.tasks[w].phase.Responding? ==> s.tasks[w].socket in shut
  }

  lemma ActClosed(a: Action, s: Session, m: Module)
    requires Closed(s, m.shut) && Act(a, s, m).Some?
    ensures Closed(Act(a, s, m).value.0, Act(a, s, m).value.1.shut)
  {
    hide SwapRemove;
    ActFlag(a, s, m);
  }

  predicate AllClosed(m: Module) { forall k :: 0 <= k < |m.sessions| ==> Closed(m.sessions[k], m.shut) }

  lemma StepClosed(m: Module, i: nat, a: Action, n: Module)
    requires Steps(m, i, a, n) && AllClosed(m)
    ensures AllClosed(n)
  {
    ActClosed(a, m.sessions[i], m);
    ActFlag(a, m.sessions[i], m);
    hide Act;
  }

  lemma RunStep(states: seq<Module>, moves: seq<Move>, k: nat)
    requires Run(states, moves) && k + 1 < |states|
    ensures |states| == |moves| + 1
    ensures Steps(states[k], moves[k].session, moves[k].action, states[k + 1])
  {
    hide Steps, Init;
  }

  lemma StartClosed(states: seq<Module>, moves: seq<Move>)
    requires Run(states, moves)
    ensures |states| > 0 && AllClosed(states[0])
  {
    hide Steps;
  }

  lemma {:induction false} RunClosed(states: seq<Module>, moves: seq<Move>, k: nat)
    requires Run(states, moves) && k < |states|
    ensures AllClosed(states[k])
  {
    if k == 0 {
      StartClosed(states, moves);
    } else {
      hide *;
      RunClosed(states, moves, k - 1);
      RunStep(states, moves, k - 1);
      StepClosed(states[k - 1], moves[k - 1].session, moves[k - 1].action, states[k]);
    }
  }

  /** This socket is registered under this identifier. */
  predicate Under(s: Session, id: nat, socket: nat) { id in s.stop.sockets && s.stop.sockets[id] == socket }

  /** Still registered with this session, or shut. */
  predicate Kept(m: Module, i: nat, id: nat, socket: nat) {
    i < |m.sessions| && (Under(m.sessions[i], id, socket) || socket in m.shut)
  }

  /** No action forgets a registration without shutting its socket. */
  lemma ActKeepsOrShuts(a: Action, s: Session, m: Module, id: nat, socket: nat)
    requires Registered(s, m.shut) && Closed(s, m.shut) && Act(a, s, m).Some? && Under(s, id, socket)
    ensures Under(Act(a, s, m).value.0, id, socket) || socket in Act(a, s, m).value.1.shut
  {
    hide SwapRemove, Holder;
  }

  lemma StepKeepsOrShuts(m: Module, i: nat, a: Action, n: Module, k: nat, id: nat, socket: nat)
    requires Inv(m) && AllClosed(m) && Steps(m, i, a, n)
    requires Kept(m, k, id, socket)
    ensures Kept(n, k, id, socket)
  {
    hide Act, Exclusive, Registered, Tracked, Ended, Closed, Under;
    ActFlag(a, m.sessions[i], m);
    if k == i && Under(m.sessions[k], id, socket) {
      ActKeepsOrShuts(a, m.sessions[i], m, id, socket);
    }
  }

  /** What was registered at some moment is, at every later one, still registered or shut. */
  lemma {:induction false} RegisteredUntilShut(states: seq<Module>, moves: seq<Move>, j: nat, l: nat, i: nat,
                                               id: nat, socket: nat)
    requires Run(states, moves) && j <= l < |states| && Kept(states[j], i, id, socket)
    ensures Kept(states[l], i, id, socket)
    decreases l
  {
    hide *;
    if j < l {
      RegisteredUntilShut(states, moves, j, l - 1, i, id, socket);
      RunKeepsInv(states, moves, l - 1);
      RunClosed(states, moves, l - 1);
      RunStep(states, moves, l - 1);
      StepKeepsOrShuts(states[l - 1], moves[l - 1].session, moves[l - 1].action, states[l], i, id, socket);
    }
  }

  /**
   Once a session is cancelled, or its serve has returned, every socket that was ever
   registered with it is shut, whoever held it and whoever cancelled.
   */
  lemma CancelShutsRegistered(states: seq<Module>, moves: seq<Move>, j: nat, l: nat, i: nat, id: nat)
    requires Run(states, moves) && j <= l < |states| && i < |states[j].sessions|
    requires id in states[j].sessions[i].stop.sockets
    ensures i < |states[l].sessions|
    ensures states[l].sessions[i].stop.cancelled || states[l].sessions[i].pc.Returned? ==>
      states[j].sessions[i].stop.sockets[id] in states[l].shut
  {
    RegisteredUntilShut(states, moves, j, l, i, id, states[j].sessions[i].stop.sockets[id]);
    ServingIsBounded(states, moves, l, i);
  }
}
