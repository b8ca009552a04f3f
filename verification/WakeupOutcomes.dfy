// What steps and short sequences of steps of __schedule, of wakeups and of
// migrations achieve, on the events of Wakeup.
module WakeupOutcomes {
  import opened Common
  import opened Wakeup

  // ---- Which sleepers contribute to load -------------------------------------------

  // A dequeued sleeper contributes only if it sleeps uninterruptibly.
  predicate LoadKind(t: Task) {
    t.onRq.Off? && t.state.Sleeping? && t.contributes ==> t.state.kind.Uninterruptible?
  }

  predicate ExactKind(t: Task) {
    t.onRq.Off? && t.state.Sleeping? ==> (t.contributes <==> t.state.kind.Uninterruptible?)
  }

  predicate Asleep(t: Task) {
    t.onRq.Off? && t.state.Sleeping?
  }

  // A sleeper either was one before, or has just been descheduled.
  ghost predicate SleepsSince(t: Task, t': Task, e: Event) {
    || (Asleep(t) && t.state == t'.state && t.contributes == t'.contributes)
    || (e.Deschedule? && (t'.contributes <==> t'.state == Sleeping(Uninterruptible) && !e.frozen))
  }

  lemma SleeperBefore(s: State, e: Event, p: TaskId)
    requires Inv(s) && Enabled(s, e) && p < |s.tasks|
    ensures |Apply(s, e).tasks| == |s.tasks|
    ensures Asleep(Apply(s, e).tasks[p]) ==> SleepsSince(s.tasks[p], Apply(s, e).tasks[p], e)
  {
    assert TaskOk(s, p);
    if OnCpuEvent(e) {
      SleeperOnCpuEvent(s, e, p);
    } else {
      SleeperOnAgentEvent(s, e, p);
    }
  }

  lemma SleeperOnDeschedule(s: State, e: Event, p: TaskId)
    requires Enabled(s, e) && e.Deschedule? && p < |s.tasks|
    ensures |Apply(s, e).tasks| == |s.tasks|
    ensures Asleep(Apply(s, e).tasks[p]) ==> SleepsSince(s.tasks[p], Apply(s, e).tasks[p], e)
  {
  }

  lemma SleeperOnCpuEvent(s: State, e: Event, p: TaskId)
    requires Enabled(s, e) && OnCpuEvent(e) && p < |s.tasks| && TaskOk(s, p)
    ensures |Apply(s, e).tasks| == |s.tasks|
    ensures Asleep(Apply(s, e).tasks[p]) ==> SleepsSince(s.tasks[p], Apply(s, e).tasks[p], e)
  {
    if e.Deschedule? {
      SleeperOnDeschedule(s, e, p);
    } else {
      assert Seen(s.tasks[p], p, s.cpus[s.tasks[p].cpu], s.tasks[p].cpu);
    }
  }

  lemma SleeperOnAgentEvent(s: State, e: Event, p: TaskId)
    requires Enabled(s, e) && !OnCpuEvent(e) && p < |s.tasks|
    ensures |Apply(s, e).tasks| == |s.tasks|
    ensures Asleep(Apply(s, e).tasks[p]) ==> SleepsSince(s.tasks[p], Apply(s, e).tasks[p], e)
  {
  }

  lemma {:induction false} RunKeepsKind(s: State, es: seq<Event>, p: TaskId)
    requires Inv(s) && Possible(s, es) && p < |s.tasks| && LoadKind(s.tasks[p])
    ensures |Final(s, es).tasks| == |s.tasks| && LoadKind(Final(s, es).tasks[p])
    ensures ExactKind(s.tasks[p]) && (forall i :: 0 <= i < |es| && es[i].Deschedule? ==> !es[i].frozen) ==>
      ExactKind(Final(s, es).tasks[p])
    decreases |es|
  {
    if es != [] {
      SleeperBefore(s, es[0], p);
      StepKeepsInv(s, es[0]);
      RunKeepsKind(Apply(s, es[0]), es[1..], p);
    }
  }

  // In every run only uninterruptible sleepers contribute, and all of them do if
  // none was frozen when it went to sleep.
  lemma ContributorsByState(init: State, es: seq<Event>, p: TaskId)
    requires Init(init) && Possible(init, es) && p < |Final(init, es).tasks|
    ensures LoadKind(Final(init, es).tasks[p])
    ensures (forall i :: 0 <= i < |es| && es[i].Deschedule? ==> !es[i].frozen) ==> ExactKind(Final(init, es).tasks[p])
  {
    InitIsGood(init);
    RunKeepsTasks(init, es);
    RunKeepsKind(init, es, p);
  }

  lemma {:induction false} RunKeepsTasks(s: State, es: seq<Event>)
    requires Possible(s, es)
    ensures |Final(s, es).tasks| == |s.tasks|
    decreases |es|
  {
    if es != [] {
      LoadBalancedSizes(s, es[0]);
      RunKeepsTasks(Apply(s, es[0]), es[1..]);
    }
  }

  // Tasks asleep uninterruptibly, and those of them being woken.
  function Uninterruptibles(s: State): set<TaskId> {
    set p | 0 <= p < |s.tasks| && s.tasks[p].onRq.Off?
            && (s.tasks[p].state == Sleeping(Uninterruptible) || (s.tasks[p].state.Waking? && s.tasks[p].contributes))
  }

  // In every run in which nobody was frozen, nr_uninterruptible summed over the
  // CPUs counts them.
  lemma UninterruptibleCount(init: State, es: seq<Event>)
    requires Init(init) && Possible(init, es) && forall i :: 0 <= i < |es| && es[i].Deschedule? ==> !es[i].frozen
    ensures TotalUninterruptible(Final(init, es).cpus) == |Uninterruptibles(Final(init, es))|
  {
    InitIsGood(init);
    RunIsGood(init, es);
    var s := Final(init, es);
    forall p | 0 <= p < |s.tasks| ensures ExactKind(s.tasks[p]) && TaskOk(s, p) {
      ContributorsByState(init, es, p);
    }
    assert LoadTasks(s.tasks) == Uninterruptibles(s);
  }

  // ---- How the total changes -----------------------------------------------------------

  // The event puts an uninterruptible sleeper that is not frozen to sleep.
  predicate FallsAsleep(s: State, e: Event)
    requires Enabled(s, e)
  {
    && e.Deschedule? && !e.preempt && !e.frozen && s.cpus[e.c].curr.Some?
    && s.tasks[s.cpus[e.c].curr.value].state == Sleeping(Uninterruptible)
  }

  // The event puts a contributing task back on a run queue.
  predicate WakesContributor(s: State, e: Event)
    requires Enabled(s, e)
  {
    || (e.Direct? && s.tasks[s.agents[e.a].p].contributes)
    || (e.Ipi? && s.tasks[s.cpus[e.c].wakelist[0]].contributes)
  }

  // The standing of the event's subject changes accordingly.
  lemma StandingChanges(s: State, e: Event)
    requires Inv(s) && Enabled(s, e) && Subject(s, e).Some?
    ensures Subject(s, e).value < |s.tasks| == |Apply(s, e).tasks|
    ensures var p := Subject(s, e).value;
      Bit(LoadBlocked(Apply(s, e).tasks[p])) - Bit(LoadBlocked(s.tasks[p]))
      == Bit(FallsAsleep(s, e)) - Bit(WakesContributor(s, e))
  {
    SubjectInRange(s, e);
    if OnCpuEvent(e) { StandingOnCpuEvent(s, e); } else { StandingOnAgentEvent(s, e); }
  }

  lemma StandingOnCpuEvent(s: State, e: Event)
    requires Inv(s) && Enabled(s, e) && OnCpuEvent(e) && Subject(s, e).Some? && Subject(s, e).value < |s.tasks|
    ensures |Apply(s, e).tasks| == |s.tasks|
    ensures var p := Subject(s, e).value;
      Bit(LoadBlocked(Apply(s, e).tasks[p])) - Bit(LoadBlocked(s.tasks[p])) == Bit(FallsAsleep(s, e))
  {
    if e.Deschedule? {
      var p := Subject(s, e).value;
      assert TaskOk(s, p) && Seen(s.tasks[p], p, s.cpus[e.c], e.c);
    }
  }

  lemma StandingOnAgentEvent(s: State, e: Event)
    requires Inv(s) && Enabled(s, e) && !OnCpuEvent(e) && Subject(s, e).value < |s.tasks|
    ensures |Apply(s, e).tasks| == |s.tasks|
    ensures var p := Subject(s, e).value;
      Bit(LoadBlocked(s.tasks[p])) - Bit(LoadBlocked(Apply(s, e).tasks[p])) == Bit(WakesContributor(s, e))
  {
    if e.Direct? || e.MoveIn? {
      assert AgentOk(s, e.a) && TaskOk(s, s.agents[e.a].p);
    } else if e.Ipi? {
      WakelistEntry(s, e.c);
    }
  }

  // Each step raises the total by one exactly if an unfrozen uninterruptible
  // sleeper is dequeued, and lowers it by one exactly if a contributor is enqueued.
  lemma TotalStep(s: State, e: Event)
    requires Inv(s) && Enabled(s, e)
    ensures TotalUninterruptible(Apply(s, e).cpus) - TotalUninterruptible(s.cpus)
         == Bit(FallsAsleep(s, e)) - Bit(WakesContributor(s, e))
  {
    LoadDelta(s, e);
    if Subject(s, e).Some? {
      StandingChanges(s, e);
      var p := Subject(s, e).value;
      OthersOnly(s, e, p);
      LoadUpdate(s.tasks, p, Apply(s, e).tasks[p]);
    } else {
      assert Apply(s, e).tasks == s.tasks;
    }
  }

  lemma OthersOnly(s: State, e: Event, p: TaskId)
    requires Inv(s) && Enabled(s, e) && p < |s.tasks| && Subject(s, e) == Some(p)
    ensures |Apply(s, e).tasks| == |s.tasks| && Apply(s, e).tasks == s.tasks[p := Apply(s, e).tasks[p]]
  {
    LoadBalancedSizes(s, e);
    forall q | 0 <= q < |s.tasks| && q != p ensures Apply(s, e).tasks[q] == s.tasks[q] {
      OthersUnchanged(s, e, q);
    }
  }

  // ---- __schedule ------------------------------------------------------------------------

  // The current task leaves its run queue exactly if it does not give way to
  // preemption, is not runnable, and is not interruptible with a signal pending;
  // with the signal it is made runnable.
  lemma DequeuedIff(s: State, c: CpuId, preempt: bool, signal: bool, frozen: bool)
    requires Inv(s) && Enabled(s, Deschedule(c, preempt, signal, frozen)) && s.cpus[c].curr.Some?
    ensures var p := s.cpus[c].curr.value;
      var s' := Apply(s, Deschedule(c, preempt, signal, frozen));
      && p < |s.tasks| == |s'.tasks| && |s'.cpus| == |s.cpus|
      && var t, t' := s.tasks[p], s'.tasks[p];
         var sleeps := !preempt && t.state.Sleeping?;
         && (t'.onRq.Off? <==> sleeps && !(signal && t.state.kind.Interruptible?))
         && (p in s'.cpus[c].queue <==> !t'.onRq.Off?)
         && t'.state == (if sleeps && !t'.onRq.Off? then Ready else t.state)
         && s'.cpus[c].nrIowait - s.cpus[c].nrIowait == Bit(t'.onRq.Off? && t.iowait)
  {
    var p := s.cpus[c].curr.value;
    assert CpuOk(s, c) && TaskOk(s, p) && Seen(s.tasks[p], p, s.cpus[c], c);
  }

  // From the pick on: the task chosen is current, with on_cpu set, the previous
  // one is off the CPU, and the run-queue lock is free.
  lemma SwitchTakesPlace(s: State, c: CpuId, next: Option<TaskId>)
    requires Inv(s) && Enabled(s, Pick(c, next)) && next != s.cpus[c].phase.prev
    ensures var s1 := Apply(s, Pick(c, next));
      Enabled(s1, Finish(c)) &&
      var s2 := Apply(s1, Finish(c));
      && |s2.cpus| == |s.cpus| && |s2.tasks| == |s.tasks| && s2.cpus[c].curr == next && s2.cpus[c].phase.Free?
      && (next.Some? ==> s2.tasks[next.value].onCpu)
      && (s.cpus[c].phase.prev.Some? ==>
            s.cpus[c].phase.prev.value < |s2.tasks| && !s2.tasks[s.cpus[c].phase.prev.value].onCpu)
  {
    assert CpuOk(s, c);
    if s.cpus[c].phase.prev.Some? { assert TaskOk(s, s.cpus[c].phase.prev.value); }
  }

  lemma PickKeepsCurrent(s: State, c: CpuId)
    requires Inv(s) && c < |s.cpus| && s.cpus[c].phase.Descheduling? && Enabled(s, Pick(c, s.cpus[c].phase.prev))
    ensures var s' := Apply(s, Pick(c, s.cpus[c].phase.prev));
      |s'.cpus| == |s.cpus| && s'.cpus[c].curr == s.cpus[c].curr && s'.cpus[c].phase.Free? && s'.tasks == s.tasks
  {
    assert CpuOk(s, c);
  }

  // ---- Wakeups ---------------------------------------------------------------------------

  // p sleeps in a state that no call under way names.
  ghost predicate Unmatched(s: State, p: TaskId, k: Kind) {
    && p < |s.tasks| && s.tasks[p].onRq.Off? && s.tasks[p].state == Sleeping(k)
    && forall a :: a in s.agents && !s.agents[a].Finished? && s.agents[a].p == p ==>
         s.agents[a].Called? && k !in s.agents[a].mask
  }

  lemma UnmatchedOnCpuEvent(s: State, e: Event, p: TaskId, k: Kind)
    requires Enabled(s, e) && OnCpuEvent(e) && Unmatched(s, p, k) && TaskOk(s, p)
    ensures Unmatched(Apply(s, e), p, k)
  {
    assert Seen(s.tasks[p], p, s.cpus[s.tasks[p].cpu], s.tasks[p].cpu);
    if e.Deschedule? || e.Pick? { assert e.c < |s.cpus| && Seen(s.tasks[p], p, s.cpus[e.c], e.c); }
  }

  lemma UnmatchedOnAgentEvent(s: State, e: Event, p: TaskId, k: Kind)
    requires Inv(s) && Enabled(s, e) && !OnCpuEvent(e) && Unmatched(s, p, k)
    requires e.Call? && e.p == p ==> k !in e.mask
    ensures Unmatched(Apply(s, e), p, k)
  {
    if e.Ipi? { WakelistEntry(s, e.c); }
  }

  // try_to_wake_up wakes only what its state mask names: in every continuation in
  // which no call names the state, the task sleeps on.
  lemma {:induction false} OnlyNamedStatesWake(s: State, es: seq<Event>, p: TaskId, k: Kind)
    requires Inv(s) && Possible(s, es) && Unmatched(s, p, k)
    requires forall i :: 0 <= i < |es| && es[i].Call? && es[i].p == p ==> k !in es[i].mask
    ensures Unmatched(Final(s, es), p, k)
    decreases |es|
  {
    if es != [] {
      assert TaskOk(s, p);
      if OnCpuEvent(es[0]) { UnmatchedOnCpuEvent(s, es[0], p, k); } else { UnmatchedOnAgentEvent(s, es[0], p, k); }
      StepKeepsInv(s, es[0]);
      OnlyNamedStatesWake(Apply(s, es[0]), es[1..], p, k);
    }
  }

  // A wakeup whose mask names the state gets hold of the task.
  lemma NamedStateMatches(s: State, a: Agent)
    requires Enabled(s, Lock(a))
    ensures var p := s.agents[a].p;
      var s' := Apply(s, Lock(a));
      && a in s'.agents
      && (s'.agents[a] == Matched(p) <==> s.tasks[p].state.Sleeping? && s.tasks[p].state.kind in s.agents[a].mask)
      && (s'.agents[a] != Matched(p) ==> s'.agents[a].Finished? && s'.tasks == s.tasks)
  {
  }

  // The woken task is runnable on the run queue of the CPU, and the call is over.
  predicate Woken(s: State, a: Agent, p: TaskId, c: CpuId) {
    && p < |s.tasks| && s.tasks[p].onRq.Queued? && s.tasks[p].state.Ready? && s.tasks[p].cpu == c
    && c < |s.cpus| && p in s.cpus[c].queue && a in s.agents && s.agents[a].Finished?
  }

  // A dequeued task that is off its CPU is put on the run queue selected for it.
  lemma WakeupEnqueues(s: State, a: Agent, to: CpuId)
    requires Inv(s) && At(s, a) && s.agents[a].Marked? && to < |s.cpus| && CpuFree(s, to)
    requires !s.tasks[s.agents[a].p].onCpu
    ensures Enabled(s, Select(a, to)) && Enabled(Apply(s, Select(a, to)), Direct(a))
    ensures Woken(Apply(Apply(s, Select(a, to)), Direct(a)), a, s.agents[a].p, to)
  {
  }

  // The same through the wakelist of the selected CPU and its interrupt.
  lemma WakelistEnqueues(s: State, a: Agent, to: CpuId)
    requires Inv(s) && At(s, a) && s.agents[a].Placed? && CpuFree(s, to) && s.tasks[s.agents[a].p].cpu == to
    requires s.cpus[to].wakelist == []
    ensures Enabled(s, ListRemote(a)) && Enabled(Apply(s, ListRemote(a)), Ipi(to))
    ensures Woken(Apply(Apply(s, ListRemote(a)), Ipi(to)), a, s.agents[a].p, to)
  {
    assert AgentOk(s, a);
  }

  // A task still on its run queue is made runnable where it is.
  lemma RunnableStaysPut(s: State, a: Agent)
    requires Inv(s) && Enabled(s, Runnable(a)) && s.tasks[s.agents[a].p].onRq.Queued?
    ensures Woken(Apply(s, Runnable(a)), a, s.agents[a].p, s.tasks[s.agents[a].p].cpu)
  {
    var p := s.agents[a].p;
    assert TaskOk(s, p) && Seen(s.tasks[p], p, s.cpus[s.tasks[p].cpu], s.tasks[p].cpu);
  }

  // ---- The sleeper's own steps -----------------------------------------------------------

  // set_current_state, then the test of CONDITION: the loop ends, the task being
  // runnable, exactly if CONDITION is true, and else goes on to schedule().
  lemma LoopTests(s: State, p: TaskId, kind: Kind)
    requires Enabled(s, SetState(p, kind))
    ensures Enabled(Apply(s, SetState(p, kind)), Test(p))
    ensures var t := Apply(Apply(s, SetState(p, kind)), Test(p));
      && p < |t.tasks| && t.tasks[p].cond == s.tasks[p].cond
      && (s.tasks[p].cond ==> t.tasks[p].state.Ready? && t.tasks[p].loop.Out?)
      && (!s.tasks[p].cond ==> t.tasks[p].state == Sleeping(kind) && t.tasks[p].loop.Committed?)
  {
  }

  // A wakeup of the current task by itself, and what it consumes or marks.
  lemma OwnSteps(s: State, e: Event)
    requires Enabled(s, e) && (e.WakeSelf? || e.Consume? || e.SetIowait?)
    ensures e.p < |s.tasks| == |Apply(s, e).tasks|
    ensures var t, t' := s.tasks[e.p], Apply(s, e).tasks[e.p];
      && (t'.state.Ready? <==> t.state.Ready? || (e.WakeSelf? && t.state.Sleeping? && t.state.kind in e.mask))
      && t'.cond == (t.cond && !e.Consume?)
      && t'.iowait == (if e.SetIowait? then e.b else t.iowait)
  {
  }

  // ---- move_queued_task ----------------------------------------------------------------

  // A queued task ends on the run queue it is moved to and on no other, as
  // runnable or sleeping as it was.
  lemma MoveArrives(s: State, a: Agent, p: TaskId, to: CpuId)
    requires Inv(s) && Enabled(s, MoveOut(a, p, to)) && CpuFree(s, to)
    ensures var s1 := Apply(s, MoveOut(a, p, to));
      Enabled(s1, MoveIn(a)) &&
      var s2 := Apply(s1, MoveIn(a));
      && |s2.tasks| == |s.tasks| && |s2.cpus| == |s.cpus|
      && p in s2.cpus[to].queue && s2.tasks[p].onRq.Queued? && s2.tasks[p].cpu == to
      && s2.tasks[p].state == s.tasks[p].state
      && (forall c :: 0 <= c < |s.cpus| && c != to ==> p !in s2.cpus[c].queue)
  {
    assert TaskOk(s, p);
    forall c | 0 <= c < |s.cpus| ensures Seen(s.tasks[p], p, s.cpus[c], c) { }
  }
}
