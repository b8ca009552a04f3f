// Wakeups and migrations never get stuck: from every reachable state every call
// can run to its end.
module WakeupProgress {
  import opened Common
  import opened Wakeup

  ghost predicate CanFinish(s: State, a: Agent) {
    exists es :: Possible(s, es) && a in Final(s, es).agents && Final(s, es).agents[a].Finished?
  }

  lemma Now(s: State, a: Agent)
    requires a in s.agents && s.agents[a].Finished?
    ensures CanFinish(s, a)
  {
    assert Possible(s, []) && Final(s, []) == s;
  }

  lemma After(s: State, e: Event, a: Agent)
    requires Enabled(s, e) && CanFinish(Apply(s, e), a)
    ensures CanFinish(s, a)
  {
    var t := Apply(s, e);
    var es :| Possible(t, es) && a in Final(t, es).agents && Final(t, es).agents[a].Finished?;
    assert ([e] + es)[1..] == es;
    assert Possible(s, [e] + es) && Final(s, [e] + es) == Final(t, es);
  }

  // ---- Freeing a CPU ---------------------------------------------------------------

  // How far a CPU is from releasing its run-queue lock.
  function Held(s: State, c: CpuId): nat
    requires c < |s.cpus|
  {
    match s.cpus[c].phase
    case Free => 0
    case Switching(_) => 1
    case Descheduling(_) => 2
  }

  // The rest of __schedule: pick the idle task, finish the switch.
  function Release(s: State, c: CpuId): Event
    requires c < |s.cpus| && !s.cpus[c].phase.Free?
  {
    if s.cpus[c].phase.Descheduling? then Pick(c, None) else Finish(c)
  }

  lemma ReleaseStep(s: State, c: CpuId)
    requires Inv(s) && c < |s.cpus| && !s.cpus[c].phase.Free?
    ensures Enabled(s, Release(s, c))
    ensures var t := Apply(s, Release(s, c));
      && t.agents == s.agents && |t.cpus| == |s.cpus| && |t.tasks| == |s.tasks| && Held(t, c) < Held(s, c)
      && forall p :: 0 <= p < |s.tasks| ==>
           t.tasks[p].cpu == s.tasks[p].cpu && t.tasks[p].onRq == s.tasks[p].onRq && t.tasks[p].pi == s.tasks[p].pi
  {
    assert CpuOk(s, c);
    if s.cpus[c].phase.prev.Some? {
      assert TaskOk(s, s.cpus[c].phase.prev.value);
    }
  }

  // ---- A call that holds the task's lock ---------------------------------------------

  // How far it is from its end.
  function Left(pc: Pc): nat {
    match pc
    case Called(_, _) => 6
    case Matched(_) => 5
    case TryRunnable(_) => 4
    case NotQueued(_) => 3
    case Marked(_) => 2
    case Placed(_, _) => 1
    case Moving(_) => 1
    case Finished => 0
  }

  predicate Holding(pc: Pc) {
    !pc.Called? && !pc.Finished?
  }

  // It needs the run queue of the task's CPU.
  predicate NeedsQueue(pc: Pc) {
    pc.TryRunnable? || pc.Moving?
  }

  // Its next step.
  function NextStep(s: State, a: Agent): Event
    requires At(s, a) && Holding(s.agents[a])
  {
    match s.agents[a]
    case Matched(_) => ReadOnRq(a)
    case TryRunnable(_) => Runnable(a)
    case NotQueued(_) => Mark(a)
    case Marked(p) => if s.tasks[p].onCpu then ListOnCpu(a) else Select(a, s.tasks[p].cpu)
    case Placed(_, _) => ListRemote(a)
    case Moving(_) => MoveIn(a)
  }

  lemma HolderAt(s: State, a: Agent)
    requires Inv(s) && a in s.agents && Holding(s.agents[a])
    ensures At(s, a) && TaskOk(s, s.agents[a].p) && s.tasks[s.agents[a].p].pi == Some(a)
    ensures s.agents[a].TryRunnable? ==> !s.tasks[s.agents[a].p].onRq.Migrating?
  {
    assert AgentOk(s, a) && TaskOk(s, s.agents[a].p);
    assert Knows(s.tasks[s.agents[a].p], s.agents[a]);
  }

  lemma HolderSteps(s: State, a: Agent)
    requires Inv(s) && a in s.agents && Holding(s.agents[a])
    requires At(s, a) && (NeedsQueue(s.agents[a]) ==> CpuFree(s, s.tasks[s.agents[a].p].cpu))
    ensures Enabled(s, NextStep(s, a))
    ensures var t := Apply(s, NextStep(s, a));
      && a in t.agents && Left(t.agents[a]) < Left(s.agents[a]) && !t.agents[a].Called?
      && forall b :: b in s.agents && b != a ==> b in t.agents && t.agents[b] == s.agents[b]
  {
    HolderAt(s, a);
  }

  // Only the lock's holder gives it up, at its end.
  lemma HolderKeepsLock(s: State, a: Agent)
    requires Inv(s) && a in s.agents && Holding(s.agents[a])
    requires At(s, a) && (NeedsQueue(s.agents[a]) ==> CpuFree(s, s.tasks[s.agents[a].p].cpu))
    requires Enabled(s, NextStep(s, a))
    ensures var p, t := s.agents[a].p, Apply(s, NextStep(s, a));
      && p < |t.tasks| && a in t.agents
      && (if t.agents[a].Finished? then t.tasks[p].pi.None? else t.tasks[p].pi == Some(a) && t.agents[a].p == p)
  {
    HolderAt(s, a);
  }

  lemma HolderMoves(s: State, a: Agent)
    requires Inv(s) && a in s.agents && Holding(s.agents[a])
    requires At(s, a) && (NeedsQueue(s.agents[a]) ==> CpuFree(s, s.tasks[s.agents[a].p].cpu))
    ensures Enabled(s, NextStep(s, a)) && Inv(Apply(s, NextStep(s, a)))
  {
    HolderSteps(s, a);
    StepKeepsInv(s, NextStep(s, a));
  }

  // The event that brings a holder, or the CPU it waits for, forward.
  function Onward(s: State, a: Agent): Event
    requires At(s, a) && Holding(s.agents[a])
  {
    var c := s.tasks[s.agents[a].p].cpu;
    if NeedsQueue(s.agents[a]) && !s.cpus[c].phase.Free? then Release(s, c) else NextStep(s, a)
  }

  lemma OnwardIsEnabled(s: State, a: Agent)
    requires Inv(s) && a in s.agents && Holding(s.agents[a])
    ensures At(s, a) && Enabled(s, Onward(s, a)) && Inv(Apply(s, Onward(s, a)))
  {
    HolderAt(s, a);
    var c := s.tasks[s.agents[a].p].cpu;
    if NeedsQueue(s.agents[a]) && !s.cpus[c].phase.Free? {
      ReleaseStep(s, c);
      StepKeepsInv(s, Release(s, c));
    } else {
      HolderMoves(s, a);
    }
  }

  function Waits(s: State, a: Agent): nat {
    if At(s, a) && NeedsQueue(s.agents[a]) then Held(s, s.tasks[s.agents[a].p].cpu) else 0
  }

  lemma OnwardShrinks(s: State, a: Agent)
    requires Inv(s) && a in s.agents && Holding(s.agents[a]) && At(s, a) && Enabled(s, Onward(s, a))
    ensures var t := Apply(s, Onward(s, a));
      && a in t.agents && !t.agents[a].Called?
      && (Left(t.agents[a]) < Left(s.agents[a]) || (t.agents == s.agents && Waits(t, a) < Waits(s, a)))
      && forall b :: b in s.agents && b != a ==> b in t.agents && t.agents[b] == s.agents[b]
  {
    var c := s.tasks[s.agents[a].p].cpu;
    if NeedsQueue(s.agents[a]) && !s.cpus[c].phase.Free? {
      ReleaseStep(s, c);
    } else {
      HolderSteps(s, a);
    }
  }

  lemma {:induction false} HolderFinishes(s: State, a: Agent)
    requires Inv(s) && a in s.agents && !s.agents[a].Called?
    ensures CanFinish(s, a)
    decreases Left(s.agents[a]), Waits(s, a)
  {
    if s.agents[a].Finished? {
      Now(s, a);
    } else {
      OnwardIsEnabled(s, a);
      OnwardShrinks(s, a);
      HolderFinishes(Apply(s, Onward(s, a)), a);
      After(s, Onward(s, a), a);
    }
  }

  // ---- A call that waits for the lock --------------------------------------------------

  lemma LockedThenFinishes(s: State, a: Agent)
    requires Inv(s) && a in s.agents && s.agents[a].Called? && s.agents[a].p < |s.tasks|
    requires s.tasks[s.agents[a].p].pi.None?
    ensures CanFinish(s, a)
  {
    assert TaskOk(s, s.agents[a].p);
    StepKeepsInv(s, Lock(a));
    HolderFinishes(Apply(s, Lock(a)), a);
    After(s, Lock(a), a);
  }

  lemma OnwardKeepsLock(s: State, b: Agent)
    requires Inv(s) && b in s.agents && Holding(s.agents[b]) && At(s, b) && Enabled(s, Onward(s, b))
    ensures var p, t := s.agents[b].p, Apply(s, Onward(s, b));
      && p < |t.tasks| && b in t.agents
      && (if t.agents[b].Finished? then t.tasks[p].pi.None? else t.tasks[p].pi == Some(b) && t.agents[b].p == p)
  {
    HolderAt(s, b);
    var c := s.tasks[s.agents[b].p].cpu;
    if NeedsQueue(s.agents[b]) && !s.cpus[c].phase.Free? {
      ReleaseStep(s, c);
    } else {
      HolderKeepsLock(s, b);
    }
  }

  // The holder b finishes first.
  lemma {:induction false} CallerFinishes(s: State, a: Agent, b: Agent)
    requires Inv(s) && a in s.agents && s.agents[a].Called? && s.agents[a].p < |s.tasks| && a != b
    requires b in s.agents && Holding(s.agents[b]) && s.agents[b].p == s.agents[a].p
    ensures CanFinish(s, a)
    decreases Left(s.agents[b]), Waits(s, b)
  {
    OnwardIsEnabled(s, b);
    OnwardShrinks(s, b);
    OnwardKeepsLock(s, b);
    var t := Apply(s, Onward(s, b));
    if t.agents[b].Finished? {
      LockedThenFinishes(t, a);
    } else {
      CallerFinishes(t, a, b);
    }
    After(s, Onward(s, b), a);
  }

  // From every reachable state every wakeup and every migration can finish.
  lemma EveryCallCanFinish(init: State, es: seq<Event>, a: Agent)
    requires Init(init) && Possible(init, es) && a in Final(init, es).agents
    ensures CanFinish(Final(init, es), a)
  {
    InitIsGood(init);
    RunIsGood(init, es);
    var s := Final(init, es);
    if !s.agents[a].Called? {
      HolderFinishes(s, a);
    } else {
      assert AgentOk(s, a) && TaskOk(s, s.agents[a].p);
      match s.tasks[s.agents[a].p].pi
      case None => LockedThenFinishes(s, a);
      case Some(b) => CallerFinishes(s, a, b);
    }
  }
}
