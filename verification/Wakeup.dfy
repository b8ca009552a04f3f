// Sleeping, waking and moving tasks between run queues: __schedule,
// prepare_task/finish_task, try_to_wake_up with its wakelist path,
// sched_ttwu_pending and move_queued_task.
//
// Memory is sequentially consistent. An event is one lock-protected region, or
// one unlocked access that the code makes deliberately (reading on_rq and
// on_cpu in try_to_wake_up). The run-queue lock is held from Deschedule to
// Finish; a task's pi_lock is held by the agent named in its pi field.
module Wakeup {
  import opened Common

  type TaskId = nat
  type CpuId = nat
  type Agent = nat      // one call of try_to_wake_up or of a migration

  datatype Kind = Interruptible | Uninterruptible | Idle   // Idle carries TASK_NOLOAD

  const NORMAL: set<Kind> := {Interruptible, Uninterruptible, Idle}

  datatype RunState = Ready | Sleeping(kind: Kind) | Waking

  datatype OnRq = Off | Queued | Migrating

  // Position in: set_current_state; if (CONDITION) break; schedule(); repeat
  datatype Loop = Out | Prepared | Committed

  datatype Task = Task(
    cpu: CpuId,
    onRq: OnRq,
    onCpu: bool,
    state: RunState,
    contributes: bool,       // sched_contributes_to_load
    iowait: bool,            // in_iowait
    remote: bool,            // sched_remote_wakeup
    pi: Option<Agent>,       // holder of pi_lock
    cond: bool,              // the CONDITION this task waits for
    loop: Loop)

  datatype Phase =
    | Free                             // run-queue lock available
    | Descheduling(prev: Option<TaskId>)
    | Switching(prev: Option<TaskId>)

  datatype Cpu = Cpu(
    curr: Option<TaskId>,              // None is the idle task
    phase: Phase,
    queue: set<TaskId>,
    wakelist: seq<TaskId>,
    nrIowait: int,
    nrUninterruptible: int)

  datatype Pc =
    | Called(p: TaskId, mask: set<Kind>)
    | Matched(p: TaskId)               // pi_lock held, p->state & state
    | TryRunnable(p: TaskId)           // saw p->on_rq
    | NotQueued(p: TaskId)
    | Marked(p: TaskId)                // p->state = TASK_WAKING
    | Placed(p: TaskId, migrated: bool)
    | Moving(p: TaskId)                // move_queued_task between the two queues
    | Finished

  datatype State = State(tasks: seq<Task>, cpus: seq<Cpu>, agents: map<Agent, Pc>)

  datatype Event =
    | SetState(p: TaskId, kind: Kind)
    | Test(p: TaskId)
    | Consume(p: TaskId)
    | SetIowait(p: TaskId, b: bool)
    | WakeSelf(p: TaskId, mask: set<Kind>)
    | Deschedule(c: CpuId, preempt: bool, signal: bool, frozen: bool)
    | Pick(c: CpuId, next: Option<TaskId>)
    | Finish(c: CpuId)
    | Call(a: Agent, p: TaskId, mask: set<Kind>, sets: bool)
    | Lock(a: Agent)
    | ReadOnRq(a: Agent)
    | Runnable(a: Agent)
    | Mark(a: Agent)
    | ListOnCpu(a: Agent)
    | Select(a: Agent, to: CpuId)
    | ListRemote(a: Agent)
    | Direct(a: Agent)
    | Ipi(c: CpuId)
    | MoveOut(a: Agent, p: TaskId, to: CpuId)
    | MoveIn(a: Agent)

  // ---- Steps ------------------------------------------------------------

  predicate Current(s: State, p: TaskId) {
    && p < |s.tasks| && s.tasks[p].cpu < |s.cpus|
    && s.cpus[s.tasks[p].cpu].curr == Some(p) && s.cpus[s.tasks[p].cpu].phase.Free?
  }

  predicate At(s: State, a: Agent) {
    a in s.agents && !s.agents[a].Finished?
    && s.agents[a].p < |s.tasks| && s.tasks[s.agents[a].p].cpu < |s.cpus|
  }

  predicate CpuFree(s: State, c: CpuId) {
    c < |s.cpus| && s.cpus[c].phase.Free?
  }

  predicate InRange(s: State, p: Option<TaskId>) {
    p.Some? ==> p.value < |s.tasks| && s.tasks[p.value].cpu < |s.cpus|
  }

  predicate Enabled(s: State, e: Event) {
    match e
    case SetState(p, _) => Current(s, p)
    case Test(p) => Current(s, p) && s.tasks[p].loop.Prepared?
    case Consume(p) => Current(s, p) && s.tasks[p].loop.Out?
    case SetIowait(p, _) => Current(s, p)
    case WakeSelf(p, _) => Current(s, p)
    case Deschedule(c, preempt, _, _) =>
      CpuFree(s, c) && InRange(s, s.cpus[c].curr)
      // schedule() comes after the test of CONDITION
      && (!preempt && s.cpus[c].curr.Some? ==> !s.tasks[s.cpus[c].curr.value].loop.Prepared?)
    case Pick(c, next) =>
      c < |s.cpus| && s.cpus[c].phase.Descheduling? && InRange(s, next)
      && (next.Some? ==> next.value in s.cpus[c].queue)
    case Finish(c) => c < |s.cpus| && s.cpus[c].phase.Switching? && InRange(s, s.cpus[c].phase.prev)
    case Call(a, p, mask, sets) =>
      p < |s.tasks| && (a in s.agents ==> s.agents[a].Finished?) && (sets ==> mask == NORMAL)
    case Lock(a) => At(s, a) && s.agents[a].Called? && s.tasks[s.agents[a].p].pi.None?
    case ReadOnRq(a) => At(s, a) && s.agents[a].Matched?
    case Runnable(a) =>
      At(s, a) && s.agents[a].TryRunnable? && !s.tasks[s.agents[a].p].onRq.Migrating?
      && CpuFree(s, s.tasks[s.agents[a].p].cpu)
    case Mark(a) => At(s, a) && s.agents[a].NotQueued?
    case ListOnCpu(a) => At(s, a) && s.agents[a].Marked? && s.tasks[s.agents[a].p].onCpu
    case Select(a, to) => At(s, a) && s.agents[a].Marked? && !s.tasks[s.agents[a].p].onCpu && to < |s.cpus|
    case ListRemote(a) => At(s, a) && s.agents[a].Placed?
    case Direct(a) => At(s, a) && s.agents[a].Placed? && CpuFree(s, s.tasks[s.agents[a].p].cpu)
    case Ipi(c) => CpuFree(s, c) && s.cpus[c].wakelist != [] && s.cpus[c].wakelist[0] < |s.tasks|
    case MoveOut(a, p, to) =>
      && (a in s.agents ==> s.agents[a].Finished?) && to < |s.cpus|
      && p < |s.tasks| && CpuFree(s, s.tasks[p].cpu)
      && s.tasks[p].pi.None? && s.tasks[p].onRq.Queued? && !s.tasks[p].onCpu
    case MoveIn(a) => At(s, a) && s.agents[a].Moving? && CpuFree(s, s.tasks[s.agents[a].p].cpu)
  }

  function PutTask(s: State, p: TaskId, t: Task): State
    requires p < |s.tasks|
  {
    s.(tasks := s.tasks[p := t])
  }

  function PutCpu(s: State, c: CpuId, k: Cpu): State
    requires c < |s.cpus|
  {
    s.(cpus := s.cpus[c := k])
  }

  function PutPc(s: State, a: Agent, pc: Pc): State {
    s.(agents := s.agents[a := pc])
  }

  // ttwu_do_activate on the run queue of CPU c
  function Activate(s: State, c: CpuId, p: TaskId, migrated: bool, t: Task): State
    requires c < |s.cpus| && p < |s.tasks|
  {
    var k := s.cpus[c];
    var k' := k.(nrUninterruptible := if t.contributes then k.nrUninterruptible - 1 else k.nrUninterruptible,
                 nrIowait := if !migrated && t.iowait then k.nrIowait - 1 else k.nrIowait,
                 queue := k.queue + {p});
    PutCpu(PutTask(s, p, t.(onRq := Queued, state := Ready)), c, k')
  }

  // __schedule up to pick_next_task, for the task being descheduled
  function Deactivate(s: State, c: CpuId, p: TaskId, signal: bool, frozen: bool): State
    requires c < |s.cpus| && p < |s.tasks| && s.tasks[p].state.Sleeping?
  {
    var t, k := s.tasks[p], s.cpus[c];
    if signal && t.state.kind.Interruptible? then PutTask(s, p, t.(state := Ready))
    else
      var load := t.state.kind.Uninterruptible? && !frozen;
      var k' := k.(queue := k.queue - {p},
                   nrUninterruptible := if load then k.nrUninterruptible + 1 else k.nrUninterruptible,
                   nrIowait := if t.iowait then k.nrIowait + 1 else k.nrIowait);
      PutCpu(PutTask(s, p, t.(onRq := Off, contributes := load)), c, k')
  }

  function Apply(s: State, e: Event): State
    requires Enabled(s, e)
  {
    match e
    case SetState(p, kind) => PutTask(s, p, s.tasks[p].(state := Sleeping(kind), loop := Prepared))
    case Test(p) =>
      var t := s.tasks[p];
      PutTask(s, p, if t.cond then t.(state := Ready, loop := Out) else t.(loop := Committed))
    case Consume(p) => PutTask(s, p, s.tasks[p].(cond := false))
    case SetIowait(p, b) => PutTask(s, p, s.tasks[p].(iowait := b))
    case WakeSelf(p, mask) =>
      var t := s.tasks[p];
      if t.state.Sleeping? && t.state.kind in mask then PutTask(s, p, t.(state := Ready)) else s
    case Deschedule(c, preempt, signal, frozen) =>
      var curr := s.cpus[c].curr;
      var d := if !preempt && curr.Some? && s.tasks[curr.value].state.Sleeping?
               then Deactivate(s, c, curr.value, signal, frozen) else s;
      PutCpu(d, c, d.cpus[c].(phase := Descheduling(curr)))
    case Pick(c, next) =>
      var k := s.cpus[c];
      if next == k.phase.prev then PutCpu(s, c, k.(phase := Free))
      else
        var d := if next.Some? then PutTask(s, next.value, s.tasks[next.value].(onCpu := true)) else s;
        PutCpu(d, c, k.(curr := next, phase := Switching(k.phase.prev)))
    case Finish(c) =>
      var prev := s.cpus[c].phase.prev;
      var d := if prev.Some? then PutTask(s, prev.value, s.tasks[prev.value].(onCpu := false)) else s;
      PutCpu(d, c, s.cpus[c].(phase := Free))
    case Call(a, p, mask, sets) =>
      PutPc(if sets then PutTask(s, p, s.tasks[p].(cond := true)) else s, a, Called(p, mask))
    case Lock(a) =>
      var p := s.agents[a].p;
      var t := s.tasks[p];
      if t.state.Sleeping? && t.state.kind in s.agents[a].mask
      then PutPc(PutTask(s, p, t.(pi := Some(a))), a, Matched(p))
      else PutPc(s, a, Finished)
    case ReadOnRq(a) =>
      var p := s.agents[a].p;
      PutPc(s, a, if s.tasks[p].onRq.Off? then NotQueued(p) else TryRunnable(p))
    case Runnable(a) =>
      var p := s.agents[a].p;
      if s.tasks[p].onRq.Queued?
      then PutPc(PutTask(s, p, s.tasks[p].(state := Ready, pi := None)), a, Finished)
      else PutPc(s, a, NotQueued(p))
    case Mark(a) =>
      var p := s.agents[a].p;
      PutPc(PutTask(s, p, s.tasks[p].(state := Waking)), a, Marked(p))
    case ListOnCpu(a) => Enlist(s, a, false)
    case Select(a, to) =>
      var p := s.agents[a].p;
      var t := s.tasks[p];
      if t.cpu == to then PutPc(s, a, Placed(p, false))
      else
        var k := s.cpus[t.cpu];
        var d := if t.iowait then PutCpu(s, t.cpu, k.(nrIowait := k.nrIowait - 1)) else s;
        PutPc(PutTask(d, p, t.(cpu := to)), a, Placed(p, true))
    case ListRemote(a) => Enlist(s, a, s.agents[a].migrated)
    case Direct(a) =>
      var p := s.agents[a].p;
      PutPc(Activate(s, s.tasks[p].cpu, p, s.agents[a].migrated, s.tasks[p].(pi := None)), a, Finished)
    case Ipi(c) =>
      var p := s.cpus[c].wakelist[0];
      var d := PutCpu(s, c, s.cpus[c].(wakelist := s.cpus[c].wakelist[1..]));
      Activate(d, c, p, s.tasks[p].remote, s.tasks[p].(cpu := c))
    case MoveOut(a, p, to) =>
      var t := s.tasks[p];
      var k := s.cpus[t.cpu];
      PutPc(PutCpu(PutTask(s, p, t.(onRq := Migrating, cpu := to, pi := Some(a))), t.cpu, k.(queue := k.queue - {p})),
            a, Moving(p))
    case MoveIn(a) =>
      var p := s.agents[a].p;
      var t := s.tasks[p];
      var k := s.cpus[t.cpu];
      PutPc(PutCpu(PutTask(s, p, t.(onRq := Queued, pi := None)), t.cpu, k.(queue := k.queue + {p})), a, Finished)
  }

  // __ttwu_queue_wakelist on the task's CPU, then release of pi_lock
  function Enlist(s: State, a: Agent, migrated: bool): State
    requires At(s, a)
  {
    var p := s.agents[a].p;
    var t := s.tasks[p];
    var k := s.cpus[t.cpu];
    var d := PutTask(s, p, t.(remote := migrated, pi := None));
    PutPc(PutCpu(d, t.cpu, k.(wakelist := k.wakelist + [p])), a, Finished)
  }

  // Steps of the running task and of the switch, as against those of agents.
  predicate OnCpuEvent(e: Event) {
    || e.SetState? || e.Test? || e.Consume? || e.SetIowait? || e.WakeSelf?
    || e.Deschedule? || e.Pick? || e.Finish?
  }

  // ---- Placement invariant ----------------------------------------------

  // Task p as seen from CPU c: on its run queue exactly when queued there, on its
  // wakelist exactly once when handed over to it, current or being switched
  // away from only if this is its CPU and on_cpu is set.
  ghost predicate Seen(t: Task, p: TaskId, k: Cpu, c: CpuId) {
    && (p in k.queue <==> t.onRq.Queued? && t.cpu == c)
    && multiset(k.wakelist)[p] == (if t.state.Waking? && t.pi.None? && t.cpu == c then 1 else 0)
    && (k.curr == Some(p) ==> t.cpu == c && t.onCpu)
    && (k.curr == Some(p) && !k.phase.Descheduling? ==> t.onRq.Queued?)
    && (k.phase == Switching(Some(p)) ==> t.cpu == c && t.onCpu && k.curr != Some(p))
    && (t.onCpu && t.cpu == c ==> k.curr == Some(p) || k.phase == Switching(Some(p)))
  }

  // The task's own fields are consistent.
  ghost predicate Local(t: Task) {
    && (t.state.Waking? ==> t.onRq.Off?)
    && (t.onRq.Off? ==> !t.state.Ready? && t.loop.Committed?)
    && (t.state.Sleeping? ==> !t.loop.Out?)
    && (t.onRq.Migrating? ==> !t.onCpu && t.pi.Some?)
  }

  predicate Locked(pc: Pc, p: TaskId) {
    !pc.Called? && !pc.Finished? && pc.p == p
  }

  // What an agent inside try_to_wake_up or move_queued_task knows of its task.
  ghost predicate Knows(t: Task, pc: Pc) {
    match pc
    case Matched(_) => !t.state.Waking? && !t.onRq.Migrating?
    case TryRunnable(_) => !t.state.Waking? && !t.onRq.Migrating?
    case NotQueued(_) => t.onRq.Off? && t.state.Sleeping?
    case Marked(_) => t.state.Waking?
    case Placed(_, _) => t.state.Waking? && !t.onCpu
    case Moving(_) => t.onRq.Migrating?
    case _ => true
  }

  ghost predicate TaskOk(s: State, p: TaskId)
    requires p < |s.tasks|
  {
    var t := s.tasks[p];
    && t.cpu < |s.cpus|
    && Local(t)
    && (forall c :: 0 <= c < |s.cpus| ==> Seen(t, p, s.cpus[c], c))
    && (t.pi.Some? ==> t.pi.value in s.agents && Locked(s.agents[t.pi.value], p))
  }

  ghost predicate AgentOk(s: State, a: Agent)
    requires a in s.agents
  {
    var pc := s.agents[a];
    && (!pc.Finished? ==> pc.p < |s.tasks|)
    && (!pc.Finished? && !pc.Called? ==> s.tasks[pc.p].pi == Some(a) && Knows(s.tasks[pc.p], pc))
  }

  ghost predicate CpuOk(s: State, c: CpuId)
    requires c < |s.cpus|
  {
    var k := s.cpus[c];
    && (k.phase.Descheduling? ==> k.phase.prev == k.curr)
    && (k.curr.Some? ==> k.curr.value < |s.tasks|)
    && (k.phase.Switching? && k.phase.prev.Some? ==> k.phase.prev.value < |s.tasks|)
    && (forall p :: p in k.queue || p in k.wakelist ==> p < |s.tasks|)
  }

  ghost predicate Inv(s: State) {
    && (forall p :: 0 <= p < |s.tasks| ==> TaskOk(s, p))
    && (forall c :: 0 <= c < |s.cpus| ==> CpuOk(s, c))
    && (forall a :: a in s.agents ==> AgentOk(s, a))
  }

  // ---- Framing ----------------------------------------------------------

  // CPU c looks the same to task q before and after.
  ghost predicate SameView(k: Cpu, k': Cpu, q: TaskId) {
    && (q in k.queue <==> q in k'.queue)
    && multiset(k.wakelist)[q] == multiset(k'.wakelist)[q]
    && (k.curr == Some(q) <==> k'.curr == Some(q))
    && (k'.curr == Some(q) && k.phase.Descheduling? ==> k'.phase.Descheduling?)
    && (k.phase == Switching(Some(q)) <==> k'.phase == Switching(Some(q)))
  }

  // Only task p, CPU c and agent a may differ.
  ghost predicate Confined(s: State, t: State, p: TaskId, c: CpuId, a: Agent) {
    && |t.tasks| == |s.tasks| && |t.cpus| == |s.cpus| && p < |s.tasks| && c < |s.cpus|
    && (forall q :: 0 <= q < |s.tasks| && q != p ==> t.tasks[q] == s.tasks[q])
    && (forall d :: 0 <= d < |s.cpus| && d != c ==> t.cpus[d] == s.cpus[d])
    && (forall q :: q != p ==> SameView(s.cpus[c], t.cpus[c], q))
    && (t.agents == s.agents || (a in t.agents && t.agents == s.agents[a := t.agents[a]]))
  }

  lemma OtherTasks(s: State, t: State, p: TaskId, c: CpuId, a: Agent, q: TaskId)
    requires Confined(s, t, p, c, a) && q < |s.tasks| && q != p && TaskOk(s, q)
    requires t.agents == s.agents || (a in s.agents ==> !Locked(s.agents[a], q))
    ensures TaskOk(t, q)
  {
    forall d | 0 <= d < |t.cpus| ensures Seen(t.tasks[q], q, t.cpus[d], d) {
      assert Seen(s.tasks[q], q, s.cpus[d], d);
      if d == c {
        assert SameView(s.cpus[c], t.cpus[c], q);
      }
    }
  }

  lemma OtherAgents(s: State, t: State, p: TaskId, c: CpuId, a: Agent, b: Agent)
    requires Confined(s, t, p, c, a) && b in s.agents && AgentOk(s, b)
    requires t.agents == s.agents || b != a
    requires Locked(s.agents[b], p) ==> t.tasks[p].pi == s.tasks[p].pi && Knows(t.tasks[p], s.agents[b])
    ensures AgentOk(t, b)
  {
  }

  // The agent's own step on the task it has locked (or is about to lock).
  ghost predicate Mine(s: State, a: Agent, p: TaskId) {
    forall b :: b in s.agents && b != a ==> !Locked(s.agents[b], p)
  }

  lemma LockIsMine(s: State, a: Agent, p: TaskId)
    requires Inv(s) && p < |s.tasks| && (s.tasks[p].pi == Some(a) || s.tasks[p].pi.None?)
    ensures Mine(s, a, p)
  {
  }

  lemma AgentStep(s: State, t: State, p: TaskId, c: CpuId, a: Agent)
    requires Inv(s) && Confined(s, t, p, c, a) && a in t.agents
    requires t.agents[a].Finished? || t.agents[a].p == p
    requires a in s.agents ==> forall q :: Locked(s.agents[a], q) ==> q == p
    requires Mine(s, a, p)
    requires TaskOk(t, p) && AgentOk(t, a) && CpuOk(t, c)
    ensures Inv(t)
  {
    forall q | 0 <= q < |t.tasks| ensures TaskOk(t, q) {
      if q != p { OtherTasks(s, t, p, c, a, q); }
    }
    forall b | b in t.agents ensures AgentOk(t, b) {
      if b != a { OtherAgents(s, t, p, c, a, b); }
    }
    forall d | 0 <= d < |t.cpus| ensures CpuOk(t, d) {
      if d != c { assert CpuOk(s, d); }
    }
  }

  // A step of the CPU's current task, or of the switch itself.
  lemma CpuStep(s: State, t: State, p: TaskId, c: CpuId)
    requires Inv(s) && Confined(s, t, p, c, 0) && t.agents == s.agents
    requires t.tasks[p].pi == s.tasks[p].pi
    requires s.tasks[p].pi.Some? ==>
      s.tasks[p].pi.value in s.agents && Knows(t.tasks[p], s.agents[s.tasks[p].pi.value])
    requires TaskOk(t, p) && CpuOk(t, c)
    ensures Inv(t)
  {
    forall q | 0 <= q < |t.tasks| ensures TaskOk(t, q) {
      if q != p { OtherTasks(s, t, p, c, 0, q); }
    }
    forall b | b in t.agents ensures AgentOk(t, b) {
      assert AgentOk(s, b);
      OtherAgents(s, t, p, c, 0, b);
    }
    forall d | 0 <= d < |t.cpus| ensures CpuOk(t, d) {
      if d != c { assert CpuOk(s, d); }
    }
  }

  // ---- Each event keeps the placement invariant --------------------------

  // What a running task does to itself.
  lemma CurrentStep(s: State, p: TaskId, t: Task)
    requires Inv(s) && Current(s, p) && Local(t) && !t.state.Waking?
    requires t.cpu == s.tasks[p].cpu && t.onRq == s.tasks[p].onRq && t.onCpu == s.tasks[p].onCpu
      && t.pi == s.tasks[p].pi
    ensures Inv(PutTask(s, p, t))
  {
    var s' := PutTask(s, p, t);
    assert TaskOk(s, p) && Seen(s.tasks[p], p, s.cpus[t.cpu], t.cpu);
    forall c | 0 <= c < |s.cpus| ensures Seen(t, p, s'.cpus[c], c) {
      assert Seen(s.tasks[p], p, s.cpus[c], c);
    }
    if t.pi.Some? {
      assert AgentOk(s, t.pi.value);
    }
    assert CpuOk(s, t.cpu);
    CpuStep(s, s', p, t.cpu);
  }

  // A switch step that changes no task.
  lemma IdleStep(s: State, s': State, c: CpuId)
    requires Inv(s) && c < |s.cpus| && s'.tasks == s.tasks && s'.agents == s.agents
    requires |s'.cpus| == |s.cpus| && (forall d :: 0 <= d < |s.cpus| && d != c ==> s'.cpus[d] == s.cpus[d])
    requires CpuOk(s', c) && (forall q :: SameView(s.cpus[c], s'.cpus[c], q))
    ensures Inv(s')
  {
    forall q | 0 <= q < |s'.tasks| ensures TaskOk(s', q) {
      assert TaskOk(s, q);
      forall d | 0 <= d < |s'.cpus| ensures Seen(s'.tasks[q], q, s'.cpus[d], d) {
        assert Seen(s.tasks[q], q, s.cpus[d], d);
        if d == c {
          assert SameView(s.cpus[c], s'.cpus[c], q);
        }
      }
    }
    forall b | b in s'.agents ensures AgentOk(s', b) {
      assert AgentOk(s, b);
    }
    forall d | 0 <= d < |s'.cpus| ensures CpuOk(s', d) {
      if d != c { assert CpuOk(s, d); }
    }
  }

  // The task goes to sleep: off the run queue, still current.
  lemma DequeueKeepsInv(s: State, s': State, c: CpuId, p: TaskId, load: bool)
    requires Inv(s) && CpuFree(s, c) && s.cpus[c].curr == Some(p) && p < |s.tasks|
    requires s.tasks[p].state.Sleeping? && s.tasks[p].loop.Committed?
    requires s'.tasks == s.tasks[p := s.tasks[p].(onRq := Off, contributes := load)] && s'.agents == s.agents
    requires exists u, w :: s'.cpus == s.cpus[c := s.cpus[c].(
      queue := s.cpus[c].queue - {p}, nrUninterruptible := u, nrIowait := w, phase := Descheduling(Some(p)))]
    ensures Inv(s')
  {
    assert CpuOk(s, c) && TaskOk(s, p) && Seen(s.tasks[p], p, s.cpus[c], c);
    forall d | 0 <= d < |s'.cpus| ensures Seen(s'.tasks[p], p, s'.cpus[d], d) {
      assert Seen(s.tasks[p], p, s.cpus[d], d);
    }
    if s.tasks[p].pi.Some? {
      assert AgentOk(s, s.tasks[p].pi.value);
    }
    CpuStep(s, s', p, c);
  }

  lemma DescheduleKeepsInv(s: State, c: CpuId, preempt: bool, signal: bool, frozen: bool)
    requires Inv(s) && Enabled(s, Deschedule(c, preempt, signal, frozen))
    ensures Inv(Apply(s, Deschedule(c, preempt, signal, frozen)))
  {
    var s' := Apply(s, Deschedule(c, preempt, signal, frozen));
    var curr := s.cpus[c].curr;
    assert CpuOk(s, c);
    if !preempt && curr.Some? && s.tasks[curr.value].state.Sleeping? {
      var p := curr.value;
      var t := s.tasks[p];
      assert TaskOk(s, p) && Seen(t, p, s.cpus[c], c);
      if signal && t.state.kind.Interruptible? {
        CurrentStep(s, p, t.(state := Ready));
        IdleStep(PutTask(s, p, t.(state := Ready)), s', c);
      } else {
        DequeueKeepsInv(s, s', c, p, t.state.kind.Uninterruptible? && !frozen);
      }
    } else {
      IdleStep(s, s', c);
    }
  }

  lemma PickKeepsInv(s: State, c: CpuId, next: Option<TaskId>)
    requires Inv(s) && Enabled(s, Pick(c, next))
    ensures Inv(Apply(s, Pick(c, next)))
  {
    var k := s.cpus[c];
    assert CpuOk(s, c);
    if next == k.phase.prev {
      SwitchAway(s, c, k.(phase := Free));
    } else {
      var k1 := k.(curr := None, phase := Switching(k.curr));
      SwitchAway(s, c, k1);
      if next.Some? {
        SwitchTo(PutCpu(s, c, k1), c, next.value);
        assert s.cpus[c := k1][c := k1.(curr := next)] == s.cpus[c := k1.(curr := next)];
      }
    }
  }

  // The previous task keeps the CPU, or is marked as being switched away from.
  lemma SwitchAway(s: State, c: CpuId, k': Cpu)
    requires Inv(s) && c < |s.cpus| && s.cpus[c].phase.Descheduling?
    requires var k := s.cpus[c];
      || (k' == k.(curr := None, phase := Switching(k.curr)))
      || (k' == k.(phase := Free) && (k.curr.Some? ==> k.curr.value in k.queue))
    ensures Inv(PutCpu(s, c, k'))
  {
    var s' := PutCpu(s, c, k');
    assert CpuOk(s, c);
    if s.cpus[c].curr.Some? {
      var p := s.cpus[c].curr.value;
      assert TaskOk(s, p) && Seen(s.tasks[p], p, s.cpus[c], c);
      forall d | 0 <= d < |s'.cpus| ensures Seen(s'.tasks[p], p, s'.cpus[d], d) {
        assert Seen(s.tasks[p], p, s.cpus[d], d);
      }
      if s.tasks[p].pi.Some? {
        assert AgentOk(s, s.tasks[p].pi.value);
      }
      CpuStep(s, s', p, c);
    } else {
      IdleStep(s, s', c);
    }
  }

  lemma SwitchTo(s: State, c: CpuId, p: TaskId)
    requires Inv(s) && c < |s.cpus| && s.cpus[c].phase.Switching? && s.cpus[c].curr.None?
    requires p in s.cpus[c].queue && s.cpus[c].phase.prev != Some(p) && p < |s.tasks|
    ensures Inv(PutCpu(PutTask(s, p, s.tasks[p].(onCpu := true)), c, s.cpus[c].(curr := Some(p))))
  {
    var s' := PutCpu(PutTask(s, p, s.tasks[p].(onCpu := true)), c, s.cpus[c].(curr := Some(p)));
    assert CpuOk(s, c);
    assert TaskOk(s, p) && Seen(s.tasks[p], p, s.cpus[c], c);
    forall d | 0 <= d < |s'.cpus| ensures Seen(s'.tasks[p], p, s'.cpus[d], d) {
      assert Seen(s.tasks[p], p, s.cpus[d], d);
    }
    if s.tasks[p].pi.Some? {
      assert AgentOk(s, s.tasks[p].pi.value);
    }
    CpuStep(s, s', p, c);
  }

  lemma FinishKeepsInv(s: State, c: CpuId)
    requires Inv(s) && Enabled(s, Finish(c))
    ensures Inv(Apply(s, Finish(c)))
  {
    var s' := Apply(s, Finish(c));
    assert CpuOk(s, c);
    if s.cpus[c].phase.prev.Some? {
      var p := s.cpus[c].phase.prev.value;
      assert TaskOk(s, p) && Seen(s.tasks[p], p, s.cpus[c], c);
      forall d | 0 <= d < |s'.cpus| ensures Seen(s'.tasks[p], p, s'.cpus[d], d) {
        assert Seen(s.tasks[p], p, s.cpus[d], d);
      }
      if s.tasks[p].pi.Some? {
        assert AgentOk(s, s.tasks[p].pi.value);
      }
      CpuStep(s, s', p, c);
    } else {
      IdleStep(s, s', c);
    }
  }

  // Steps of try_to_wake_up that write only the task and the agent.
  lemma AgentTaskStep(s: State, a: Agent, p: TaskId, t: Task, pc: Pc)
    requires Inv(s) && p < |s.tasks| && Mine(s, a, p) && Local(t)
    requires a in s.agents ==> s.agents[a].Called? || s.agents[a].Finished? || s.agents[a].p == p
    requires t.cpu == s.tasks[p].cpu && t.onRq == s.tasks[p].onRq && t.onCpu == s.tasks[p].onCpu
    requires t.state.Waking? && t.pi.None? <==> s.tasks[p].state.Waking? && s.tasks[p].pi.None?
    requires if pc.Finished? then t.pi.None? else Locked(pc, p) && Knows(t, pc) && t.pi == Some(a)
    ensures Inv(PutPc(PutTask(s, p, t), a, pc))
  {
    var s' := PutPc(PutTask(s, p, t), a, pc);
    assert TaskOk(s, p) && CpuOk(s, t.cpu);
    forall c | 0 <= c < |s.cpus| ensures Seen(t, p, s'.cpus[c], c) {
      assert Seen(s.tasks[p], p, s.cpus[c], c);
    }
    AgentStep(s, s', p, t.cpu, a);
  }

  // An agent that holds no lock.
  lemma UnlockedStep(s: State, a: Agent, pc: Pc)
    requires Inv(s) && (a in s.agents ==> s.agents[a].Called? || s.agents[a].Finished?)
    requires pc.Finished? || (pc.Called? && pc.p < |s.tasks|)
    ensures Inv(PutPc(s, a, pc))
  {
    var s' := PutPc(s, a, pc);
    forall q | 0 <= q < |s'.tasks| ensures TaskOk(s', q) {
      assert TaskOk(s, q);
    }
    forall d | 0 <= d < |s'.cpus| ensures CpuOk(s', d) {
      assert CpuOk(s, d);
    }
    forall b | b in s'.agents ensures AgentOk(s', b) {
      if b != a { assert AgentOk(s, b); }
    }
  }

  lemma SetCondKeepsInv(s: State, p: TaskId)
    requires Inv(s) && p < |s.tasks|
    ensures Inv(PutTask(s, p, s.tasks[p].(cond := true)))
  {
    var s' := PutTask(s, p, s.tasks[p].(cond := true));
    assert TaskOk(s, p) && CpuOk(s, s.tasks[p].cpu);
    forall d | 0 <= d < |s'.cpus| ensures Seen(s'.tasks[p], p, s'.cpus[d], d) {
      assert Seen(s.tasks[p], p, s.cpus[d], d);
    }
    if s.tasks[p].pi.Some? {
      assert AgentOk(s, s.tasks[p].pi.value);
    }
    CpuStep(s, s', p, s.tasks[p].cpu);
  }

  // The task, on no queue or wakelist of CPU c, is put on the run queue.
  lemma EnqueueKeepsInv(s: State, s': State, a: Agent, p: TaskId)
    requires Inv(s) && At(s, a) && s.agents[a].p == p && (s.agents[a].Placed? || s.agents[a].Moving?)
    requires var c := s.tasks[p].cpu;
      && |s'.tasks| == |s.tasks|
      && s'.tasks == s.tasks[p := s.tasks[p].(onRq := Queued, pi := None, state := s'.tasks[p].state)]
      && (if s.agents[a].Placed? then s'.tasks[p].state.Ready? else s'.tasks[p].state == s.tasks[p].state)
      && s'.agents == s.agents[a := Finished]
      && exists u, w :: s'.cpus ==
           s.cpus[c := s.cpus[c].(queue := s.cpus[c].queue + {p}, nrUninterruptible := u, nrIowait := w)]
    ensures Inv(s')
  {
    var c := s.tasks[p].cpu;
    assert AgentOk(s, a) && TaskOk(s, p) && CpuOk(s, c);
    forall d | 0 <= d < |s'.cpus| ensures Seen(s'.tasks[p], p, s'.cpus[d], d) {
      assert Seen(s.tasks[p], p, s.cpus[d], d);
    }
    LockIsMine(s, a, p);
    AgentStep(s, s', p, c, a);
  }

  lemma MoveOutKeepsInv(s: State, a: Agent, p: TaskId, to: CpuId)
    requires Inv(s) && Enabled(s, MoveOut(a, p, to))
    ensures Inv(Apply(s, MoveOut(a, p, to)))
  {
    var s' := Apply(s, MoveOut(a, p, to));
    var c := s.tasks[p].cpu;
    assert TaskOk(s, p) && CpuOk(s, c);
    forall d | 0 <= d < |s'.cpus| ensures Seen(s'.tasks[p], p, s'.cpus[d], d) {
      assert Seen(s.tasks[p], p, s.cpus[d], d);
    }
    LockIsMine(s, a, p);
    AgentStep(s, s', p, c, a);
  }

  lemma EnlistKeepsInv(s: State, a: Agent, migrated: bool)
    requires Inv(s) && At(s, a) && (s.agents[a].Marked? || s.agents[a].Placed?)
    ensures Inv(Enlist(s, a, migrated))
  {
    var s' := Enlist(s, a, migrated);
    var p := s.agents[a].p;
    var c := s.tasks[p].cpu;
    assert AgentOk(s, a) && TaskOk(s, p) && CpuOk(s, c);
    var l := s.cpus[c].wakelist;
    assert multiset(l + [p]) == multiset(l) + multiset{p};
    forall q ensures q in l + [p] <==> q in l || q == p { }
    forall d | 0 <= d < |s'.cpus| ensures Seen(s'.tasks[p], p, s'.cpus[d], d) {
      assert Seen(s.tasks[p], p, s.cpus[d], d);
    }
    LockIsMine(s, a, p);
    AgentStep(s, s', p, c, a);
  }

  lemma SelectSeen(s: State, a: Agent, to: CpuId)
    requires Enabled(s, Select(a, to)) && AgentOk(s, a) && TaskOk(s, s.agents[a].p)
    ensures TaskOk(Apply(s, Select(a, to)), s.agents[a].p)
  {
    var s', p := Apply(s, Select(a, to)), s.agents[a].p;
    forall d | 0 <= d < |s'.cpus| ensures Seen(s'.tasks[p], p, s'.cpus[d], d) {
      assert Seen(s.tasks[p], p, s.cpus[d], d);
    }
  }

  lemma SelectKeepsInv(s: State, a: Agent, to: CpuId)
    requires Inv(s) && Enabled(s, Select(a, to))
    ensures Inv(Apply(s, Select(a, to)))
  {
    var p := s.agents[a].p;
    var c := s.tasks[p].cpu;
    assert AgentOk(s, a) && TaskOk(s, p) && CpuOk(s, c);
    SelectSeen(s, a, to);
    LockIsMine(s, a, p);
    AgentStep(s, Apply(s, Select(a, to)), p, c, a);
  }

  // Neither WARN_ON_ONCE of sched_ttwu_pending can fire for a task found on a
  // wakelist: it is off its CPU and assigned to this one.
  lemma WakelistEntry(s: State, c: CpuId)
    requires Inv(s) && CpuFree(s, c) && s.cpus[c].wakelist != []
    ensures var p := s.cpus[c].wakelist[0];
      && p < |s.tasks|
      && !s.tasks[p].onCpu && s.tasks[p].cpu == c && s.tasks[p].state.Waking? && s.tasks[p].onRq.Off?
      && s.tasks[p].pi.None?
  {
    var p := s.cpus[c].wakelist[0];
    assert CpuOk(s, c) && p in s.cpus[c].wakelist;
    assert TaskOk(s, p) && Seen(s.tasks[p], p, s.cpus[c], c);
    assert multiset(s.cpus[c].wakelist)[p] > 0;
  }

  lemma IpiSeen(s: State, c: CpuId)
    requires Inv(s) && Enabled(s, Ipi(c))
    ensures TaskOk(Apply(s, Ipi(c)), s.cpus[c].wakelist[0])
  {
    WakelistEntry(s, c);
    var s', l := Apply(s, Ipi(c)), s.cpus[c].wakelist;
    var p := l[0];
    assert l == [p] + l[1..];
    assert multiset(l) == multiset{p} + multiset(l[1..]);
    assert TaskOk(s, p);
    forall d | 0 <= d < |s'.cpus| ensures Seen(s'.tasks[p], p, s'.cpus[d], d) {
      assert Seen(s.tasks[p], p, s.cpus[d], d);
    }
  }

  lemma IpiKeepsInv(s: State, c: CpuId)
    requires Inv(s) && Enabled(s, Ipi(c))
    ensures Inv(Apply(s, Ipi(c)))
  {
    WakelistEntry(s, c);
    IpiSeen(s, c);
    var l := s.cpus[c].wakelist;
    assert l == [l[0]] + l[1..];
    assert multiset(l) == multiset{l[0]} + multiset(l[1..]);
    forall q ensures q in l[1..] ==> q in l { }
    assert CpuOk(s, c);
    CpuStep(s, Apply(s, Ipi(c)), l[0], c);
  }

  lemma WakerKeepsInv(s: State, e: Event)
    requires Inv(s) && Enabled(s, e) && (e.Lock? || e.ReadOnRq? || e.Runnable? || e.Mark?)
    ensures Inv(Apply(s, e))
  {
    var a := e.a;
    var p := s.agents[a].p;
    var t := s.tasks[p];
    assert AgentOk(s, a) && TaskOk(s, p);
    LockIsMine(s, a, p);
    match e
    case Lock(_) =>
      if t.state.Sleeping? && t.state.kind in s.agents[a].mask {
        AgentTaskStep(s, a, p, t.(pi := Some(a)), Matched(p));
      } else {
        UnlockedStep(s, a, Finished);
      }
    case ReadOnRq(_) =>
      assert PutTask(s, p, t) == s;
      AgentTaskStep(s, a, p, t, if t.onRq.Off? then NotQueued(p) else TryRunnable(p));
    case Runnable(_) =>
      assert PutTask(s, p, t) == s;
      if t.onRq.Queued? {
        AgentTaskStep(s, a, p, t.(state := Ready, pi := None), Finished);
      } else {
        AgentTaskStep(s, a, p, t, NotQueued(p));
      }
    case Mark(_) => AgentTaskStep(s, a, p, t.(state := Waking), Marked(p));
  }

  lemma EnqueuerKeepsInv(s: State, e: Event)
    requires Inv(s) && Enabled(s, e) && (e.Direct? || e.MoveIn?)
    ensures Inv(Apply(s, e))
  {
    var p := s.agents[e.a].p;
    var s' := Apply(s, e);
    var c := s.tasks[p].cpu;
    assert AgentOk(s, e.a) && TaskOk(s, p);
    assert s'.cpus == s.cpus[c := s.cpus[c].(queue := s.cpus[c].queue + {p},
      nrUninterruptible := s'.cpus[c].nrUninterruptible, nrIowait := s'.cpus[c].nrIowait)];
    EnqueueKeepsInv(s, s', e.a, p);
  }

  lemma SelfKeepsInv(s: State, e: Event)
    requires Inv(s) && Enabled(s, e) && (e.SetState? || e.Test? || e.Consume? || e.SetIowait? || e.WakeSelf?)
    ensures Inv(Apply(s, e))
  {
    var p := e.p;
    assert TaskOk(s, p) && Seen(s.tasks[p], p, s.cpus[s.tasks[p].cpu], s.tasks[p].cpu);
    var t := Apply(s, e).tasks[p];
    assert Apply(s, e) == PutTask(s, p, t);
    CurrentStep(s, p, t);
  }

  lemma StepKeepsInv(s: State, e: Event)
    requires Inv(s) && Enabled(s, e)
    ensures Inv(Apply(s, e))
  {
    match e
    case Deschedule(c, preempt, signal, frozen) => DescheduleKeepsInv(s, c, preempt, signal, frozen);
    case Pick(c, next) => PickKeepsInv(s, c, next);
    case Finish(c) => FinishKeepsInv(s, c);
    case Call(a, p, mask, sets) =>
      if sets {
        SetCondKeepsInv(s, p);
        UnlockedStep(PutTask(s, p, s.tasks[p].(cond := true)), a, Called(p, mask));
      } else {
        UnlockedStep(s, a, Called(p, mask));
      }
    case ListOnCpu(a) => EnlistKeepsInv(s, a, false);
    case Select(a, to) => SelectKeepsInv(s, a, to);
    case ListRemote(a) => EnlistKeepsInv(s, a, s.agents[a].migrated);
    case Ipi(c) => IpiKeepsInv(s, c);
    case MoveOut(a, p, to) => MoveOutKeepsInv(s, a, p, to);
    case Direct(_) => EnqueuerKeepsInv(s, e);
    case MoveIn(_) => EnqueuerKeepsInv(s, e);
    case Lock(_) => WakerKeepsInv(s, e);
    case ReadOnRq(_) => WakerKeepsInv(s, e);
    case Runnable(_) => WakerKeepsInv(s, e);
    case Mark(_) => WakerKeepsInv(s, e);
    case SetState(_, _) => SelfKeepsInv(s, e);
    case Test(_) => SelfKeepsInv(s, e);
    case Consume(_) => SelfKeepsInv(s, e);
    case SetIowait(_, _) => SelfKeepsInv(s, e);
    case WakeSelf(_, _) => SelfKeepsInv(s, e);
  }

  // ---- No lost wakeup ---------------------------------------------------

  // The agent will still look at the state of p, or is about to change it.
  predicate Coming(pc: Pc, p: TaskId) {
    match pc
    case Called(q, mask) => q == p && mask == NORMAL
    case Matched(q) => q == p
    case TryRunnable(q) => q == p
    case NotQueued(q) => q == p
    case _ => false
  }

  // p has found CONDITION false, is bent on sleeping, and CONDITION is now true.
  predicate Owed(t: Task) {
    t.loop.Committed? && t.state.Sleeping? && t.cond
  }

  ghost predicate WakeOk(s: State, p: TaskId)
    requires p < |s.tasks|
  {
    Owed(s.tasks[p]) ==> exists a :: a in s.agents && Coming(s.agents[a], p)
  }

  ghost predicate WakeInv(s: State) {
    forall p :: 0 <= p < |s.tasks| ==> WakeOk(s, p)
  }

  // No step makes a task owed a wakeup except the waker's own announcement.
  lemma OwedOnlyByCall(s: State, e: Event, p: TaskId)
    requires Enabled(s, e) && p < |s.tasks|
    ensures |Apply(s, e).tasks| == |s.tasks|
    ensures Owed(Apply(s, e).tasks[p]) && !Owed(s.tasks[p]) ==> e.Call? && e.sets && e.p == p
  {
    if OnCpuEvent(e) { NotOwedByTask(s, e, p); } else { NotOwedByAgent(s, e, p); }
  }

  lemma NotOwedByTask(s: State, e: Event, p: TaskId)
    requires Enabled(s, e) && p < |s.tasks| && OnCpuEvent(e)
    ensures |Apply(s, e).tasks| == |s.tasks| && (Owed(Apply(s, e).tasks[p]) ==> Owed(s.tasks[p]))
  {
  }

  lemma NotOwedByAgent(s: State, e: Event, p: TaskId)
    requires Enabled(s, e) && p < |s.tasks| && !OnCpuEvent(e)
    ensures |Apply(s, e).tasks| == |s.tasks|
    ensures Owed(Apply(s, e).tasks[p]) ==> Owed(s.tasks[p]) || (e.Call? && e.sets && e.p == p)
  {
  }

  lemma KindIsNormal(k: Kind)
    ensures k in NORMAL
  {
  }

  // A waker under way stays under way until the task's state has changed.
  lemma ComingStays(s: State, e: Event, p: TaskId, a: Agent)
    requires a in s.agents && AgentOk(s, a) && Enabled(s, e) && p < |s.tasks| && Coming(s.agents[a], p)
    requires |Apply(s, e).tasks| == |s.tasks| && Owed(s.tasks[p]) && Owed(Apply(s, e).tasks[p])
    ensures a in Apply(s, e).agents && Coming(Apply(s, e).agents[a], p)
  {
    KindIsNormal(s.tasks[p].state.kind);
  }

  lemma StepKeepsWake(s: State, e: Event)
    requires Inv(s) && WakeInv(s) && Enabled(s, e)
    ensures WakeInv(Apply(s, e))
  {
    var s' := Apply(s, e);
    forall p | 0 <= p < |s'.tasks| ensures WakeOk(s', p) {
      OwedOnlyByCall(s, e, p);
      if Owed(s'.tasks[p]) {
        if Owed(s.tasks[p]) {
          assert WakeOk(s, p);
          var a :| a in s.agents && Coming(s.agents[a], p);
          assert AgentOk(s, a);
          ComingStays(s, e, p, a);
        } else {
          assert Coming(s'.agents[e.a], p);
        }
      }
    }
  }

  // ---- Counters of blocked tasks ----------------------------------------

  // A wakeup that moved p to another CPU has already settled its I/O wait.
  predicate Settled(s: State, p: TaskId)
    requires p < |s.tasks|
  {
    var t := s.tasks[p];
    t.state.Waking?
    && (if t.pi.Some? then t.pi.value in s.agents && s.agents[t.pi.value] == Placed(p, true) else t.remote)
  }

  predicate IoBlocked(s: State, p: TaskId, c: CpuId) {
    p < |s.tasks| && s.tasks[p].onRq.Off? && s.tasks[p].iowait && s.tasks[p].cpu == c && !Settled(s, p)
  }

  function IoTasks(s: State, c: CpuId): set<TaskId> {
    set p | 0 <= p < |s.tasks| && IoBlocked(s, p, c)
  }

  predicate LoadBlocked(t: Task) {
    t.onRq.Off? && t.contributes
  }

  function LoadTasks(tasks: seq<Task>): set<TaskId> {
    set p | 0 <= p < |tasks| && LoadBlocked(tasks[p])
  }

  function TotalUninterruptible(cpus: seq<Cpu>): int {
    if cpus == [] then 0 else cpus[0].nrUninterruptible + TotalUninterruptible(cpus[1..])
  }

  ghost predicate CountInv(s: State) {
    && (forall c :: 0 <= c < |s.cpus| ==> s.cpus[c].nrIowait == |IoTasks(s, c)|)
    && TotalUninterruptible(s.cpus) == |LoadTasks(s.tasks)|
  }

  function Bit(b: bool): int { if b then 1 else 0 }

  lemma {:induction false} TotalUpdate(cpus: seq<Cpu>, c: CpuId, k: Cpu)
    requires c < |cpus|
    ensures TotalUninterruptible(cpus[c := k]) ==
      TotalUninterruptible(cpus) - cpus[c].nrUninterruptible + k.nrUninterruptible
  {
    if c == 0 {
      assert cpus[c := k][1..] == cpus[1..];
    } else {
      assert cpus[c := k][1..] == cpus[1..][c - 1 := k];
      TotalUpdate(cpus[1..], c - 1, k);
    }
  }

  lemma LoadUpdate(tasks: seq<Task>, p: TaskId, t: Task)
    requires p < |tasks|
    ensures |LoadTasks(tasks[p := t])| == |LoadTasks(tasks)| - Bit(LoadBlocked(tasks[p])) + Bit(LoadBlocked(t))
  {
    var rest := LoadTasks(tasks) - {p};
    assert LoadTasks(tasks) == if LoadBlocked(tasks[p]) then rest + {p} else rest;
    assert LoadTasks(tasks[p := t]) == if LoadBlocked(t) then rest + {p} else rest;
  }

  lemma IoUpdate(s: State, s': State, p: TaskId, c: CpuId)
    requires |s'.tasks| == |s.tasks| && p < |s.tasks|
    requires forall q :: 0 <= q < |s.tasks| && q != p ==> (IoBlocked(s, q, c) <==> IoBlocked(s', q, c))
    ensures |IoTasks(s', c)| == |IoTasks(s, c)| - Bit(IoBlocked(s, p, c)) + Bit(IoBlocked(s', p, c))
  {
    var rest := IoTasks(s, c) - {p};
    assert IoTasks(s, c) == if IoBlocked(s, p, c) then rest + {p} else rest;
    assert IoTasks(s', c) == if IoBlocked(s', p, c) then rest + {p} else rest;
  }

  // The task and the CPU that an event is about.
  function Subject(s: State, e: Event): Option<TaskId>
    requires Enabled(s, e)
  {
    match e
    case SetState(p, _) => Some(p)
    case Test(p) => Some(p)
    case Consume(p) => Some(p)
    case SetIowait(p, _) => Some(p)
    case WakeSelf(p, _) => Some(p)
    case Deschedule(c, _, _, _) => s.cpus[c].curr
    case Pick(_, next) => next
    case Finish(c) => s.cpus[c].phase.prev
    case Call(_, p, _, _) => Some(p)
    case Ipi(c) => Some(s.cpus[c].wakelist[0])
    case MoveOut(_, p, _) => Some(p)
    case _ => Some(s.agents[e.a].p)
  }

  lemma OthersUnchanged(s: State, e: Event, q: TaskId)
    requires Inv(s) && Enabled(s, e) && q < |s.tasks| && Subject(s, e) != Some(q)
    ensures |Apply(s, e).tasks| == |s.tasks| && Apply(s, e).tasks[q] == s.tasks[q]
    ensures q < |Apply(s, e).tasks| && (Settled(Apply(s, e), q) <==> Settled(s, q))
  {
    assert TaskOk(s, q);
    if OnCpuEvent(e) { OthersOnCpuEvent(s, e, q); } else { OthersOnAgentEvent(s, e, q); }
  }

  lemma OthersOnCpuEvent(s: State, e: Event, q: TaskId)
    requires Enabled(s, e) && OnCpuEvent(e) && q < |s.tasks| && Subject(s, e) != Some(q)
    ensures |Apply(s, e).tasks| == |s.tasks| && Apply(s, e).tasks[q] == s.tasks[q] && Apply(s, e).agents == s.agents
  {
  }

  lemma OthersOnAgentEvent(s: State, e: Event, q: TaskId)
    requires Enabled(s, e) && !OnCpuEvent(e) && q < |s.tasks| && TaskOk(s, q) && Subject(s, e) != Some(q)
    ensures |Apply(s, e).tasks| == |s.tasks| && Apply(s, e).tasks[q] == s.tasks[q]
    ensures q < |Apply(s, e).tasks| && (Settled(Apply(s, e), q) <==> Settled(s, q))
  {
  }

  // How an event changes the I/O-wait counter of CPU c, against how it changes
  // the standing of its subject there.
  ghost predicate IoBalanced(s: State, s': State, p: TaskId, c: CpuId) {
    |s'.cpus| == |s.cpus| && (c < |s.cpus| ==>
      s'.cpus[c].nrIowait - s.cpus[c].nrIowait == Bit(IoBlocked(s', p, c)) - Bit(IoBlocked(s, p, c)))
  }

  lemma SleepIo(s: State, e: Event, c: CpuId)
    requires Inv(s) && Enabled(s, e) && e.Deschedule? && s.cpus[e.c].curr.Some?
    ensures IoBalanced(s, Apply(s, e), s.cpus[e.c].curr.value, c)
  {
    var p := s.cpus[e.c].curr.value;
    assert TaskOk(s, p) && Seen(s.tasks[p], p, s.cpus[e.c], e.c);
  }

  lemma SelectIo(s: State, e: Event, c: CpuId)
    requires Inv(s) && Enabled(s, e) && e.Select?
    ensures IoBalanced(s, Apply(s, e), s.agents[e.a].p, c)
  {
    var p := s.agents[e.a].p;
    assert TaskOk(s, p) && AgentOk(s, e.a);
  }

  lemma ListIo(s: State, e: Event, c: CpuId)
    requires Inv(s) && Enabled(s, e) && (e.ListOnCpu? || e.ListRemote? || e.Mark? || e.Runnable? || e.ReadOnRq?)
    ensures IoBalanced(s, Apply(s, e), s.agents[e.a].p, c)
  {
  }

  lemma ActivateIo(s: State, e: Event, c: CpuId)
    requires Inv(s) && Enabled(s, e) && (e.Direct? || e.MoveIn?)
    ensures IoBalanced(s, Apply(s, e), s.agents[e.a].p, c)
  {
    var p := s.agents[e.a].p;
    assert TaskOk(s, p) && AgentOk(s, e.a);
  }

  lemma IpiIo(s: State, e: Event, c: CpuId)
    requires Inv(s) && Enabled(s, e) && e.Ipi?
    ensures IoBalanced(s, Apply(s, e), s.cpus[e.c].wakelist[0], c)
  {
    WakelistEntry(s, e.c);
  }

  lemma CurrentIo(s: State, e: Event, c: CpuId)
    requires Inv(s) && Enabled(s, e) && (e.SetState? || e.Test? || e.Consume? || e.SetIowait? || e.WakeSelf?)
    ensures IoBalanced(s, Apply(s, e), e.p, c)
  {
    assert TaskOk(s, e.p) && Seen(s.tasks[e.p], e.p, s.cpus[s.tasks[e.p].cpu], s.tasks[e.p].cpu);
  }

  lemma SwitchIo(s: State, e: Event, c: CpuId)
    requires Enabled(s, e) && (e.Pick? || e.Finish?) && Subject(s, e).Some?
    ensures IoBalanced(s, Apply(s, e), Subject(s, e).value, c)
  {
  }

  lemma OtherIo(s: State, e: Event, c: CpuId)
    requires Inv(s) && Enabled(s, e) && (e.Call? || e.Lock? || e.MoveOut?)
    ensures IoBalanced(s, Apply(s, e), Subject(s, e).value, c)
  {
  }

  lemma IoDelta(s: State, e: Event, c: CpuId)
    requires Inv(s) && Enabled(s, e) && Subject(s, e).Some?
    ensures IoBalanced(s, Apply(s, e), Subject(s, e).value, c)
  {
    if e.Deschedule? { SleepIo(s, e, c); }
    else if e.Select? { SelectIo(s, e, c); }
    else if e.ListOnCpu? || e.ListRemote? || e.Mark? || e.Runnable? || e.ReadOnRq? { ListIo(s, e, c); }
    else if e.Direct? || e.MoveIn? { ActivateIo(s, e, c); }
    else if e.Ipi? { IpiIo(s, e, c); }
    else if e.SetState? || e.Test? || e.Consume? || e.SetIowait? || e.WakeSelf? { CurrentIo(s, e, c); }
    else if e.Pick? || e.Finish? { SwitchIo(s, e, c); }
    else { OtherIo(s, e, c); }
  }

  // The same for nr_uninterruptible, whose increments and decrements may fall on
  // different CPUs: only the total is meaningful.
  ghost predicate LoadBalanced(s: State, s': State, p: TaskId, c: CpuId) {
    && p < |s.tasks| == |s'.tasks| && c < |s.cpus| == |s'.cpus|
    && s'.tasks == s.tasks[p := s'.tasks[p]] && s'.cpus == s.cpus[c := s'.cpus[c]]
    && s'.cpus[c].nrUninterruptible - s.cpus[c].nrUninterruptible
       == Bit(LoadBlocked(s'.tasks[p])) - Bit(LoadBlocked(s.tasks[p]))
  }

  // The CPU whose record an event may write.
  function Site(s: State, e: Event): CpuId
    requires Enabled(s, e) && Subject(s, e).Some? && Subject(s, e).value < |s.tasks|
  {
    match e
    case Deschedule(c, _, _, _) => c
    case Pick(c, _) => c
    case Finish(c) => c
    case Ipi(c) => c
    case _ => s.tasks[Subject(s, e).value].cpu
  }

  lemma SubjectInRange(s: State, e: Event)
    requires Inv(s) && Enabled(s, e) && Subject(s, e).Some?
    ensures Subject(s, e).value < |s.tasks| && Site(s, e) < |s.cpus|
    ensures TaskOk(s, Subject(s, e).value)
  {
    if e.Deschedule? || e.Pick? || e.Finish? {
      assert CpuOk(s, e.c);
    }
    if e.Lock? || e.ReadOnRq? || e.Runnable? || e.Mark? || e.ListOnCpu?
      || e.Select? || e.ListRemote? || e.Direct? || e.MoveIn?
    {
      assert AgentOk(s, e.a);
    }
    assert TaskOk(s, Subject(s, e).value);
  }

  lemma SleepLoad(s: State, e: Event)
    requires Inv(s) && Enabled(s, e) && e.Deschedule? && Subject(s, e).Some?
    ensures LoadBalanced(s, Apply(s, e), Subject(s, e).value, e.c)
  {
    SubjectInRange(s, e);
    var p := Subject(s, e).value;
    assert Seen(s.tasks[p], p, s.cpus[e.c], e.c);
  }

  lemma ActivateLoad(s: State, e: Event)
    requires Inv(s) && Enabled(s, e) && (e.Direct? || e.MoveIn? || e.MoveOut? || e.Ipi?)
    ensures Subject(s, e).value < |s.tasks| && LoadBalanced(s, Apply(s, e), Subject(s, e).value, Site(s, e))
  {
    SubjectInRange(s, e);
    if e.Ipi? {
      WakelistEntry(s, e.c);
    } else if !e.MoveOut? {
      assert AgentOk(s, e.a);
    }
  }

  lemma OnCpuLoad(s: State, e: Event)
    requires Inv(s) && Enabled(s, e) && Subject(s, e).Some? && OnCpuEvent(e) && !e.Deschedule?
    ensures Subject(s, e).value < |s.tasks| && LoadBalanced(s, Apply(s, e), Subject(s, e).value, Site(s, e))
  {
    SubjectInRange(s, e);
  }

  lemma OtherLoad(s: State, e: Event)
    requires Inv(s) && Enabled(s, e) && !OnCpuEvent(e)
    requires !e.Direct? && !e.MoveIn? && !e.MoveOut? && !e.Ipi?
    ensures Subject(s, e).value < |s.tasks| && LoadBalanced(s, Apply(s, e), Subject(s, e).value, Site(s, e))
  {
    SubjectInRange(s, e);
  }

  lemma LoadDelta(s: State, e: Event)
    requires Inv(s) && Enabled(s, e)
    ensures TotalUninterruptible(Apply(s, e).cpus) - TotalUninterruptible(s.cpus)
         == |LoadTasks(Apply(s, e).tasks)| - |LoadTasks(s.tasks)|
  {
    var s' := Apply(s, e);
    if Subject(s, e).Some? {
      SubjectInRange(s, e);
      var p, c := Subject(s, e).value, Site(s, e);
      if e.Deschedule? { SleepLoad(s, e); }
      else if e.Direct? || e.MoveIn? || e.MoveOut? || e.Ipi? { ActivateLoad(s, e); }
      else if OnCpuEvent(e) { OnCpuLoad(s, e); }
      else { OtherLoad(s, e); }
      TotalUpdate(s.cpus, c, s'.cpus[c]);
      LoadUpdate(s.tasks, p, s'.tasks[p]);
    } else {
      TotalUpdate(s.cpus, e.c, s'.cpus[e.c]);
    }
  }

  lemma StepKeepsIo(s: State, e: Event, c: CpuId)
    requires Inv(s) && CountInv(s) && Enabled(s, e) && c < |Apply(s, e).cpus|
    ensures Apply(s, e).cpus[c].nrIowait == |IoTasks(Apply(s, e), c)|
  {
    var s' := Apply(s, e);
    LoadBalancedSizes(s, e);
    if Subject(s, e).Some? {
      IoDelta(s, e, c);
      SubjectInRange(s, e);
      OthersIoSame(s, e, c);
      IoUpdate(s, s', Subject(s, e).value, c);
    } else {
      assert s'.tasks == s.tasks && s'.agents == s.agents;
      assert IoTasks(s', c) == IoTasks(s, c);
    }
  }

  lemma StepKeepsCount(s: State, e: Event)
    requires Inv(s) && CountInv(s) && Enabled(s, e)
    ensures CountInv(Apply(s, e))
  {
    LoadDelta(s, e);
    forall c | 0 <= c < |Apply(s, e).cpus| ensures Apply(s, e).cpus[c].nrIowait == |IoTasks(Apply(s, e), c)| {
      StepKeepsIo(s, e, c);
    }
  }

  lemma OthersIoSame(s: State, e: Event, c: CpuId)
    requires Inv(s) && Enabled(s, e) && Subject(s, e).Some? && Subject(s, e).value < |s.tasks|
    ensures |Apply(s, e).tasks| == |s.tasks|
    ensures forall q :: 0 <= q < |s.tasks| && q != Subject(s, e).value ==>
      (IoBlocked(s, q, c) <==> IoBlocked(Apply(s, e), q, c))
  {
    forall q | 0 <= q < |s.tasks| && q != Subject(s, e).value
      ensures IoBlocked(s, q, c) <==> IoBlocked(Apply(s, e), q, c)
    {
      OthersUnchanged(s, e, q);
    }
    LoadBalancedSizes(s, e);
  }

  lemma LoadBalancedSizes(s: State, e: Event)
    requires Enabled(s, e)
    ensures |Apply(s, e).tasks| == |s.tasks| && |Apply(s, e).cpus| == |s.cpus|
  {
  }

  // ---- Runs -------------------------------------------------------------

  // Every task runnable on some run queue and not running, all CPUs idle.
  ghost predicate Init(s: State) {
    && s.agents == map[]
    && (forall c :: 0 <= c < |s.cpus| ==>
          s.cpus[c] == Cpu(None, Free, set p | 0 <= p < |s.tasks| && s.tasks[p].cpu == c, [], 0, 0))
    && (forall p :: 0 <= p < |s.tasks| ==>
          && s.tasks[p].cpu < |s.cpus| && s.tasks[p].onRq.Queued? && !s.tasks[p].onCpu && s.tasks[p].state.Ready?
          && s.tasks[p].pi.None? && s.tasks[p].loop.Out?)
  }

  ghost predicate Good(s: State) {
    Inv(s) && WakeInv(s) && CountInv(s)
  }

  lemma InitIsGood(s: State)
    requires Init(s)
    ensures Good(s)
  {
    forall c | 0 <= c < |s.cpus| ensures s.cpus[c].nrIowait == |IoTasks(s, c)| {
      assert IoTasks(s, c) == {};
    }
    assert LoadTasks(s.tasks) == {};
    AllZero(s.cpus);
  }

  lemma {:induction false} AllZero(cpus: seq<Cpu>)
    requires forall c :: 0 <= c < |cpus| ==> cpus[c].nrUninterruptible == 0
    ensures TotalUninterruptible(cpus) == 0
  {
    if cpus != [] { AllZero(cpus[1..]); }
  }

  ghost predicate Possible(s: State, es: seq<Event>)
    decreases |es|
  {
    es == [] || (Enabled(s, es[0]) && Possible(Apply(s, es[0]), es[1..]))
  }

  ghost function Final(s: State, es: seq<Event>): State
    requires Possible(s, es)
    decreases |es|
  {
    if es == [] then s else Final(Apply(s, es[0]), es[1..])
  }

  lemma {:induction false} RunIsGood(s: State, es: seq<Event>)
    requires Good(s) && Possible(s, es)
    ensures Good(Final(s, es))
    decreases |es|
  {
    if es != [] {
      StepKeepsInv(s, es[0]);
      StepKeepsWake(s, es[0]);
      StepKeepsCount(s, es[0]);
      RunIsGood(Apply(s, es[0]), es[1..]);
    }
  }

  // ---- Results ----------------------------------------------------------

  predicate Sits(s: State, p: TaskId, c: CpuId) {
    c < |s.cpus| && (p in s.cpus[c].queue || p in s.cpus[c].wakelist)
  }

  // p sits on at most one run queue or wakelist, at most once, is current on at
  // most one CPU, and has on_cpu set only while its own CPU runs it or is
  // switching away from it.
  ghost predicate PlacedOnce(s: State, p: TaskId, c: CpuId, d: CpuId) {
    && (Sits(s, p, c) && Sits(s, p, d) ==> c == d)
    && (c < |s.cpus| ==> multiset(s.cpus[c].wakelist)[p] <= 1 && !(p in s.cpus[c].queue && p in s.cpus[c].wakelist))
    && (c < |s.cpus| && d < |s.cpus| && s.cpus[c].curr == Some(p) == s.cpus[d].curr ==> c == d)
    && (p < |s.tasks| && s.tasks[p].onCpu ==>
          s.tasks[p].cpu < |s.cpus| &&
          (s.cpus[s.tasks[p].cpu].curr == Some(p) || s.cpus[s.tasks[p].cpu].phase == Switching(Some(p))))
  }

  lemma InvPlacesOnce(s: State, p: TaskId, c: CpuId, d: CpuId)
    requires Inv(s)
    ensures PlacedOnce(s, p, c, d)
  {
    if p < |s.tasks| {
      assert TaskOk(s, p);
      assert c < |s.cpus| ==> Seen(s.tasks[p], p, s.cpus[c], c);
      assert d < |s.cpus| ==> Seen(s.tasks[p], p, s.cpus[d], d);
      assert Seen(s.tasks[p], p, s.cpus[s.tasks[p].cpu], s.tasks[p].cpu);
      assert c < |s.cpus| && p in s.cpus[c].wakelist ==> multiset(s.cpus[c].wakelist)[p] > 0;
      assert d < |s.cpus| && p in s.cpus[d].wakelist ==> multiset(s.cpus[d].wakelist)[p] > 0;
    } else {
      assert c < |s.cpus| ==> CpuOk(s, c);
      assert d < |s.cpus| ==> CpuOk(s, d);
    }
  }

  // In every run every task is placed once.
  lemma SinglePlacement(init: State, es: seq<Event>, p: TaskId, c: CpuId, d: CpuId)
    requires Init(init) && Possible(init, es)
    ensures PlacedOnce(Final(init, es), p, c, d)
  {
    InitIsGood(init);
    RunIsGood(init, es);
    InvPlacesOnce(Final(init, es), p, c, d);
  }

  // In every run neither warning of sched_ttwu_pending fires.
  lemma PendingWakeupsClean(init: State, es: seq<Event>, c: CpuId)
    requires Init(init) && Possible(init, es)
    ensures var s := Final(init, es);
      CpuFree(s, c) && s.cpus[c].wakelist != [] ==>
        var p := s.cpus[c].wakelist[0];
        p < |s.tasks| && !s.tasks[p].onCpu && s.tasks[p].cpu == c
  {
    InitIsGood(init);
    RunIsGood(init, es);
    var s := Final(init, es);
    if CpuFree(s, c) && s.cpus[c].wakelist != [] {
      WakelistEntry(s, c);
    }
  }

  // In every run, a task dequeued and asleep although its CONDITION is set has a
  // waker under way.
  lemma SleeperHasWaker(init: State, es: seq<Event>, p: TaskId)
    requires Init(init) && Possible(init, es)
    ensures var s := Final(init, es);
      p < |s.tasks| && s.tasks[p].cond && s.tasks[p].onRq.Off? && s.tasks[p].state.Sleeping? ==>
        exists a :: a in s.agents && !s.agents[a].Finished? && s.agents[a].p == p
  {
    InitIsGood(init);
    RunIsGood(init, es);
    var s := Final(init, es);
    if p < |s.tasks| {
      assert TaskOk(s, p) && WakeOk(s, p);
    }
  }

  // Agent a is the wakeup whose CONDITION p has not consumed: p is not bent on
  // sleeping unless a will still look at it.
  ghost predicate Promised(s: State, a: Agent, p: TaskId) {
    p < |s.tasks| && a in s.agents && s.tasks[p].cond && (Owed(s.tasks[p]) ==> Coming(s.agents[a], p))
  }

  // p does not consume CONDITION, and a names no other call.
  predicate Spares(e: Event, a: Agent, p: TaskId) {
    e != Consume(p) && !(e.Call? && e.a == a) && !(e.MoveOut? && e.a == a)
  }

  lemma CondStays(s: State, e: Event, p: TaskId)
    requires Enabled(s, e) && p < |s.tasks| && s.tasks[p].cond && e != Consume(p)
    ensures |Apply(s, e).tasks| == |s.tasks| && Apply(s, e).tasks[p].cond
  {
    if OnCpuEvent(e) { TaskKeepsCond(s, e, p); } else { AgentKeepsCond(s, e, p); }
  }

  lemma TaskKeepsCond(s: State, e: Event, p: TaskId)
    requires Enabled(s, e) && p < |s.tasks| && s.tasks[p].cond && e != Consume(p) && OnCpuEvent(e)
    ensures |Apply(s, e).tasks| == |s.tasks| && Apply(s, e).tasks[p].cond
  {
  }

  lemma AgentKeepsCond(s: State, e: Event, p: TaskId)
    requires Enabled(s, e) && p < |s.tasks| && s.tasks[p].cond && !OnCpuEvent(e)
    ensures |Apply(s, e).tasks| == |s.tasks| && Apply(s, e).tasks[p].cond
  {
  }

  lemma AgentStays(s: State, e: Event, a: Agent)
    requires Enabled(s, e) && a in s.agents
    ensures a in Apply(s, e).agents
  {
  }

  lemma StepKeepsPromise(s: State, e: Event, a: Agent, p: TaskId)
    requires Inv(s) && Enabled(s, e) && Promised(s, a, p) && Spares(e, a, p)
    ensures Promised(Apply(s, e), a, p)
  {
    CondStays(s, e, p);
    AgentStays(s, e, a);
    assert AgentOk(s, a);
    if Owed(Apply(s, e).tasks[p]) {
      if Owed(s.tasks[p]) {
        ComingStays(s, e, p, a);
      } else {
        OwedOnlyByCall(s, e, p);
        OtherCallKeepsOwed(s, e, p);
      }
    }
  }

  // Setting a CONDITION that is set already makes nobody owed a wakeup.
  lemma OtherCallKeepsOwed(s: State, e: Event, p: TaskId)
    requires Enabled(s, e) && e.Call? && p < |s.tasks| && s.tasks[p].cond
    ensures |Apply(s, e).tasks| == |s.tasks| && (Owed(Apply(s, e).tasks[p]) ==> Owed(s.tasks[p]))
  {
  }

  lemma {:induction false} RunKeepsPromise(s: State, es: seq<Event>, a: Agent, p: TaskId)
    requires Inv(s) && Possible(s, es) && Promised(s, a, p) && forall i :: 0 <= i < |es| ==> Spares(es[i], a, p)
    ensures Inv(Final(s, es)) && Promised(Final(s, es), a, p)
    decreases |es|
  {
    if es != [] {
      StepKeepsInv(s, es[0]);
      StepKeepsPromise(s, es[0], a, p);
      RunKeepsPromise(Apply(s, es[0]), es[1..], a, p);
    }
  }

  lemma {:induction false} RunSplits(s: State, es: seq<Event>, fs: seq<Event>)
    requires Possible(s, es + fs)
    ensures Possible(s, es) && Possible(Final(s, es), fs) && Final(s, es + fs) == Final(Final(s, es), fs)
    decreases |es|
  {
    if es == [] {
      assert es + fs == fs;
    } else {
      assert (es + fs)[1..] == es[1..] + fs;
      RunSplits(Apply(s, es[0]), es[1..], fs);
    }
  }

  // The wakeup a sets CONDITION for p and then runs try_to_wake_up. Once it has
  // finished, p is not dequeued and asleep until p consumes CONDITION, whichever
  // side won the race on on_rq and whatever other wakers of p do or leave undone.
  lemma NoLostWakeup(init: State, before: seq<Event>, a: Agent, p: TaskId, after: seq<Event>)
    requires Init(init) && Possible(init, before + [Call(a, p, NORMAL, true)] + after)
    requires forall i :: 0 <= i < |after| ==> Spares(after[i], a, p)
    ensures var s := Final(init, before + [Call(a, p, NORMAL, true)] + after);
      && p < |s.tasks| && a in s.agents
      && (s.agents[a].Finished? ==> !(s.tasks[p].onRq.Off? && s.tasks[p].state.Sleeping?))
  {
    var call := Call(a, p, NORMAL, true);
    RunSplits(init, before + [call], after);
    RunSplits(init, before, [call]);
    InitIsGood(init);
    RunIsGood(init, before);
    var s0 := Final(init, before);
    var s1 := Final(init, before + [call]);
    assert Possible(Apply(s0, call), []) && s1 == Apply(s0, call);
    StepKeepsInv(s0, call);
    RunKeepsPromise(s1, after, a, p);
    assert TaskOk(Final(s1, after), p);
  }

  // In every run nr_iowait of a CPU counts its dequeued tasks in I/O wait, apart
  // from those a migrating wakeup has already settled, and nr_uninterruptible
  // summed over the CPUs counts the blocked tasks contributing to load.
  lemma BlockedCounters(init: State, es: seq<Event>, c: CpuId)
    requires Init(init) && Possible(init, es)
    ensures var s := Final(init, es);
      && (c < |s.cpus| ==> s.cpus[c].nrIowait == |IoTasks(s, c)|)
      && TotalUninterruptible(s.cpus) == |LoadTasks(s.tasks)|
  {
    InitIsGood(init);
    RunIsGood(init, es);
  }

  // Dequeued tasks in I/O wait whose task_cpu is c.
  function Dequeued(s: State, c: CpuId): set<TaskId> {
    set p | 0 <= p < |s.tasks| && s.tasks[p].onRq.Off? && s.tasks[p].iowait && s.tasks[p].cpu == c
  }

  lemma PlainCountIff(s: State, c: CpuId)
    ensures |IoTasks(s, c)| == |Dequeued(s, c)| <==> forall p :: p in Dequeued(s, c) ==> !Settled(s, p)
  {
    var settled := Dequeued(s, c) - IoTasks(s, c);
    assert Dequeued(s, c) == IoTasks(s, c) + settled;
    if p :| p in Dequeued(s, c) && Settled(s, p) {
      assert p in settled;
    } else {
      assert settled == {};
    }
  }

  // The plain count, without that exception, is right exactly when no migrating
  // wakeup of a task in I/O wait is under way towards the CPU.
  lemma PlainIowaitCount(init: State, es: seq<Event>, c: CpuId)
    requires Init(init) && Possible(init, es) && c < |Final(init, es).cpus|
    ensures var s := Final(init, es);
      s.cpus[c].nrIowait == |Dequeued(s, c)| <==> forall p :: p in Dequeued(s, c) ==> !Settled(s, p)
  {
    BlockedCounters(init, es, c);
    PlainCountIff(Final(init, es), c);
  }

  // ---- The plain count can be wrong --------------------------------------

  ghost predicate Reaches(s: State, t: State) {
    exists es :: Possible(s, es) && Final(s, es) == t
  }

  lemma {:induction false} RunExtends(s: State, es: seq<Event>, e: Event)
    requires Possible(s, es) && Enabled(Final(s, es), e)
    ensures Possible(s, es + [e]) && Final(s, es + [e]) == Apply(Final(s, es), e)
    decreases |es|
  {
    if es == [] {
      assert es + [e] == [e] && Possible(Apply(s, e), []);
    } else {
      assert (es + [e])[1..] == es[1..] + [e];
      RunExtends(Apply(s, es[0]), es[1..], e);
    }
  }

  lemma Reach(s: State, t: State, e: Event)
    requires Reaches(s, t) && Enabled(t, e)
    ensures Reaches(s, Apply(t, e))
  {
    var es :| Possible(s, es) && Final(s, es) == t;
    RunExtends(s, es, e);
  }

  // One task on the run queue of CPU 0, with a second CPU.
  function Pair(t: Task, k: Cpu, agents: map<Agent, Pc>): State {
    State([t], [k, Cpu(None, Free, {}, [], 0, 0)], agents)
  }

  const SLEEPER := Task(0, Off, false, Sleeping(Uninterruptible), true, true, false, None, false, Committed)
  const READY := Task(0, Queued, false, Ready, false, false, false, None, false, Out)
  const START := Pair(READY, Cpu(None, Free, {0}, [], 0, 0), map[])

  lemma StartIsInitial()
    ensures Init(START) && Reaches(START, START)
  {
    assert {0} == set p | 0 <= p < |START.tasks| && START.tasks[p].cpu == 0;
    assert {} == set p | 0 <= p < |START.tasks| && START.tasks[p].cpu == 1;
    assert Possible(START, []) && Final(START, []) == START;
  }

  lemma CpuDeschedules()
    ensures Reaches(START, Pair(READY, Cpu(None, Descheduling(None), {0}, [], 0, 0), map[]))
  {
    StartIsInitial();
    Reach(START, START, Deschedule(0, false, false, false));
  }

  lemma TaskIsPicked()
    ensures Reaches(START, Pair(READY.(onCpu := true), Cpu(Some(0), Free, {0}, [], 0, 0), map[]))
  {
    CpuDeschedules();
    var k := Cpu(None, Free, {0}, [], 0, 0);
    Reach(START, Pair(READY, k.(phase := Descheduling(None)), map[]), Pick(0, Some(0)));
    Reach(START, Pair(READY.(onCpu := true), k.(curr := Some(0), phase := Switching(None)), map[]), Finish(0));
  }

  lemma TaskStartsWaiting()
    ensures var t := READY.(onCpu := true, iowait := true, state := Sleeping(Uninterruptible), loop := Committed);
      Reaches(START, Pair(t, Cpu(Some(0), Free, {0}, [], 0, 0), map[]))
  {
    TaskIsPicked();
    var t, k := READY.(onCpu := true), Cpu(Some(0), Free, {0}, [], 0, 0);
    Reach(START, Pair(t, k, map[]), SetIowait(0, true));
    Reach(START, Pair(t.(iowait := true), k, map[]), SetState(0, Uninterruptible));
    Reach(START, Pair(t.(iowait := true, state := Sleeping(Uninterruptible), loop := Prepared), k, map[]), Test(0));
  }

  lemma TaskIsDequeued()
    ensures Reaches(START, Pair(SLEEPER.(onCpu := true), Cpu(Some(0), Descheduling(Some(0)), {}, [], 1, 1), map[]))
  {
    TaskStartsWaiting();
    var t := READY.(onCpu := true, iowait := true, state := Sleeping(Uninterruptible), loop := Committed);
    assert {0} - {0} == {};
    Reach(START, Pair(t, Cpu(Some(0), Free, {0}, [], 0, 0), map[]), Deschedule(0, false, false, false));
  }

  lemma TaskSleeps()
    ensures Reaches(START, Pair(SLEEPER, Cpu(None, Free, {}, [], 1, 1), map[]))
  {
    TaskIsDequeued();
    var off := SLEEPER.(onCpu := true);
    Reach(START, Pair(off, Cpu(Some(0), Descheduling(Some(0)), {}, [], 1, 1), map[]), Pick(0, None));
    Reach(START, Pair(off, Cpu(None, Switching(Some(0)), {}, [], 1, 1), map[]), Finish(0));
  }

  lemma TaskIsLocked()
    ensures Reaches(START, Pair(SLEEPER.(pi := Some(0)), Cpu(None, Free, {}, [], 1, 1), map[0 := Matched(0)]))
  {
    TaskSleeps();
    KindIsNormal(Uninterruptible);
    var k := Cpu(None, Free, {}, [], 1, 1);
    Reach(START, Pair(SLEEPER, k, map[]), Call(0, 0, NORMAL, false));
    Reach(START, Pair(SLEEPER, k, map[0 := Called(0, NORMAL)]), Lock(0));
  }

  lemma TaskIsMarked()
    ensures Reaches(START,
      Pair(SLEEPER.(pi := Some(0), state := Waking), Cpu(None, Free, {}, [], 1, 1), map[0 := Marked(0)]))
  {
    TaskIsLocked();
    var t, k := SLEEPER.(pi := Some(0)), Cpu(None, Free, {}, [], 1, 1);
    Reach(START, Pair(t, k, map[0 := Matched(0)]), ReadOnRq(0));
    Reach(START, Pair(t, k, map[0 := NotQueued(0)]), Mark(0));
  }

  // A wakeup that has selected another CPU and not yet enqueued the task there:
  // CPU 1 has a dequeued task in I/O wait and nr_iowait 0.
  lemma PlainCountCanBeWrong()
    ensures exists init, s, c: CpuId ::
      Init(init) && Reaches(init, s) && c < |s.cpus| && s.cpus[c].nrIowait != |Dequeued(s, c)|
  {
    StartIsInitial();
    TaskIsMarked();
    var t := Pair(SLEEPER.(pi := Some(0), state := Waking), Cpu(None, Free, {}, [], 1, 1), map[0 := Marked(0)]);
    Reach(START, t, Select(0, 1));
    var s := Apply(t, Select(0, 1));
    assert s.cpus[1].nrIowait == 0 && 0 in Dequeued(s, 1);
    assert Reaches(START, s);
  }
}
