// What a single task is charged, exactly: over every run its cpu_burst and
// run_delay, with the slice or wait under way, are the clock advances of its CPU
// while it was queued or current there.
module TaskTime {
  import opened Common
  import opened SchedInfo

  // The CPU on which p is current.
  function CurrentOn(rqs: seq<Rq>, p: TaskId): (c: Option<CpuId>)
    ensures c.Some? ==> c.value < |rqs| && rqs[c.value].curr == Some(p)
    ensures c.None? ==> forall d :: 0 <= d < |rqs| ==> rqs[d].curr != Some(p)
  {
    if rqs == [] then None
    else if rqs[|rqs| - 1].curr == Some(p) then Some(|rqs| - 1)
    else CurrentOn(rqs[..|rqs| - 1], p)
  }

  lemma OneCurrent(s: Sys, c: CpuId, p: TaskId)
    requires Inv(s) && c < |s.rqs| && s.rqs[c].curr == Some(p)
    ensures CurrentOn(s.rqs, p) == Some(c)
  {
  }

  // Time already charged.
  function Charged(t: Info): int { t.cpuBurst + t.runDelay }

  // The slice or wait under way.
  function UnderWay(s: Sys, p: TaskId): int
    requires p < |s.tasks|
  {
    var t := s.tasks[p];
    match CurrentOn(s.rqs, p)
    case Some(c) => s.rqs[c].clock - t.lastArrival
    case None =>
      if t.lastQueued != 0 && t.rq.Some? && t.rq.value < |s.rqs|
      then s.rqs[t.rq.value].clock - t.lastQueued else 0
  }

  function Total(s: Sys, p: TaskId): int
    requires p < |s.tasks|
  {
    Charged(s.tasks[p]) + UnderWay(s, p)
  }

  // How far an event moves the clock of a CPU that p is queued or current on.
  function Advance(s: Sys, e: Event, p: TaskId): nat
    requires Enabled(s, e) && p < |s.tasks|
  {
    if e.Tick? && e.now > s.rqs[e.c].clock && (s.rqs[e.c].curr == Some(p) || s.tasks[p].rq == Some(e.c))
    then e.now - s.rqs[e.c].clock else 0
  }

  // prev->state == TASK_RUNNING exactly if the departing task is still queued.
  predicate Honest(s: Sys, e: Event)
    requires Enabled(s, e)
  {
    e.Switch? && s.rqs[e.c].curr.Some? ==> (e.running <==> s.tasks[s.rqs[e.c].curr.value].rq.Some?)
  }

  ghost predicate StampedAt(s: Sys, p: TaskId)
    requires p < |s.tasks|
  {
    s.tasks[p].rq.Some? && CurrentOn(s.rqs, p).None? ==> s.tasks[p].lastQueued != 0
  }

  // Clocks have started, and every queued task that is not running is stamped.
  ghost predicate Stamped(s: Sys) {
    && (forall c :: 0 <= c < |s.rqs| ==> s.rqs[c].clock > 0)
    && (forall p :: 0 <= p < |s.tasks| ==> StampedAt(s, p))
  }

  // Changing one CPU and another task leaves p where it was.
  lemma SameCurrent(s: Sys, s': Sys, p: TaskId)
    requires Inv(s) && Inv(s') && |s'.rqs| == |s.rqs|
    requires forall c :: 0 <= c < |s.rqs| ==> (s'.rqs[c].curr == Some(p) <==> s.rqs[c].curr == Some(p))
    ensures CurrentOn(s'.rqs, p) == CurrentOn(s.rqs, p)
  {
    match CurrentOn(s.rqs, p)
    case Some(c) => OneCurrent(s', c, p);
    case None =>
  }

  // ---- The two halves of a switch --------------------------------------------------------

  lemma DepartCharges(s: Sys, c: CpuId, running: bool, p: TaskId)
    requires Inv(s) && Stamped(s) && c < |s.rqs| && p < |s.tasks|
    requires s.rqs[c].curr.Some? ==>
      s.rqs[c].curr.value < |s.tasks| && (running <==> s.tasks[s.rqs[c].curr.value].rq.Some?)
    requires Inv(DepartStep(s, c, running))
    ensures var s' := DepartStep(s, c, running);
      |s'.tasks| == |s.tasks| && Total(s', p) == Total(s, p) && StampedAt(s', p)
  {
    var s' := DepartStep(s, c, running);
    assert StampedAt(s, p) && CpuOk(s, c);
    if s.rqs[c].curr == Some(p) {
      OneCurrent(s, c, p);
      assert TaskOk(s, p);
    } else {
      SameCurrent(s, s', p);
    }
  }

  lemma ArriveCharges(s: Sys, c: CpuId, next: Option<TaskId>, p: TaskId)
    requires Inv(s) && p < |s.tasks| && StampedAt(s, p) && c < |s.rqs| && s.rqs[c].curr.None?
    requires next.Some? ==> next.value < |s.tasks| && s.tasks[next.value].rq == Some(c)
    requires Inv(ArriveStep(s, c, next))
    ensures var s' := ArriveStep(s, c, next);
      |s'.tasks| == |s.tasks| && Total(s', p) == Total(s, p) && StampedAt(s', p)
  {
    var s' := ArriveStep(s, c, next);
    if next == Some(p) {
      OneCurrent(s', c, p);
      NotCurrent(s, c, p);
    } else {
      SameCurrent(s, s', p);
    }
  }

  // A task queued on a CPU that is idle is current nowhere.
  lemma NotCurrent(s: Sys, c: CpuId, p: TaskId)
    requires Inv(s) && c < |s.rqs| && s.rqs[c].curr.None? && p < |s.tasks| && s.tasks[p].rq == Some(c)
    ensures CurrentOn(s.rqs, p).None?
  {
    match CurrentOn(s.rqs, p)
    case Some(d) => CurrentAtHome(s, p, c, d);
    case None =>
  }

  lemma SwitchCharges(s: Sys, e: Event, p: TaskId)
    requires Inv(s) && Stamped(s) && Enabled(s, e) && e.Switch? && Honest(s, e) && p < |s.tasks|
    ensures |Apply(s, e).tasks| == |s.tasks| && Total(Apply(s, e), p) == Total(s, p) && StampedAt(Apply(s, e), p)
  {
    var s1 := DepartStep(s, e.c, e.running);
    DepartKeepsInv(s, e.c, e.running);
    DepartCharges(s, e.c, e.running, p);
    ArriveKeepsInv(s1, e.c, e.next);
    ArriveCharges(s1, e.c, e.next, p);
  }

  lemma QueueCharges(s: Sys, e: Event, p: TaskId)
    requires Inv(s) && Stamped(s) && Enabled(s, e) && (e.Enqueue? || e.Dequeue?) && p < |s.tasks|
    ensures |Apply(s, e).tasks| == |s.tasks| && Total(Apply(s, e), p) == Total(s, p) && StampedAt(Apply(s, e), p)
  {
    QueueKeepsInv(s, e);
    SameCurrent(s, Apply(s, e), p);
    assert StampedAt(s, p) && TaskOk(s, p);
    if e.p == p && e.Dequeue? {
      match CurrentOn(s.rqs, p)
      case Some(d) => assert CpuOk(s, d);
      case None =>
    }
  }

  lemma TickCharges(s: Sys, e: Event, p: TaskId)
    requires Inv(s) && Stamped(s) && Enabled(s, e) && e.Tick? && p < |s.tasks|
    ensures |Apply(s, e).tasks| == |s.tasks|
    ensures Total(Apply(s, e), p) == Total(s, p) + Advance(s, e, p) && StampedAt(Apply(s, e), p)
  {
    TickKeepsInv(s, e);
    SameCurrent(s, Apply(s, e), p);
    assert StampedAt(s, p) && TaskOk(s, p);
    match CurrentOn(s.rqs, p)
    case Some(d) => if s.rqs[e.c].curr == Some(p) { OneCurrent(s, e.c, p); } else { assert CpuOk(s, d); }
    case None =>
  }

  // ---- The law -----------------------------------------------------------------------------

  lemma StepCharges(s: Sys, e: Event, p: TaskId)
    requires Inv(s) && Stamped(s) && Enabled(s, e) && Honest(s, e) && p < |s.tasks|
    ensures p < |Apply(s, e).tasks| && Total(Apply(s, e), p) == Total(s, p) + Advance(s, e, p)
    ensures StampedAt(Apply(s, e), p)
  {
    match e
    case Tick(_, _) => TickCharges(s, e, p);
    case Fork(_) =>
      ForkKeepsInv(s, e);
      SameCurrent(s, Apply(s, e), p);
      assert StampedAt(s, p);
    case Enqueue(_, _) => QueueCharges(s, e, p);
    case Dequeue(_, _) => QueueCharges(s, e, p);
    case Switch(_, _, _) => SwitchCharges(s, e, p);
  }

  lemma StepKeepsStamped(s: Sys, e: Event)
    requires Inv(s) && Stamped(s) && Enabled(s, e) && Honest(s, e)
    ensures Stamped(Apply(s, e))
  {
    forall p | 0 <= p < |Apply(s, e).tasks| ensures StampedAt(Apply(s, e), p) {
      if p < |s.tasks| { StepCharges(s, e, p); }
    }
    ClocksGrow(s, e);
  }

  // update_rq_clock never moves a clock backwards, and only its own.
  lemma ClocksGrow(s: Sys, e: Event)
    requires Enabled(s, e)
    ensures |Apply(s, e).rqs| == |s.rqs|
    ensures forall c :: 0 <= c < |s.rqs| ==>
      Apply(s, e).rqs[c].clock == if e.Tick? && e.c == c && e.now > s.rqs[c].clock then e.now else s.rqs[c].clock
  {
  }

  ghost predicate AllHonest(s: Sys, es: seq<Event>)
    requires Possible(s, es)
    decreases |es|
  {
    es == [] || (Honest(s, es[0]) && AllHonest(Apply(s, es[0]), es[1..]))
  }

  // Clock advances of a run while p is queued or current.
  ghost function TimeOn(s: Sys, es: seq<Event>, p: TaskId): nat
    requires Possible(s, es) && p < |s.tasks|
    decreases |es|
  {
    if es == [] then 0
    else
      LengthGrows(s, es[0]);
      Advance(s, es[0], p) + TimeOn(Apply(s, es[0]), es[1..], p)
  }

  lemma LengthGrows(s: Sys, e: Event)
    requires Enabled(s, e)
    ensures |s.tasks| <= |Apply(s, e).tasks|
  {
  }

  // Over every run a task is charged exactly that, no more and no less.
  lemma {:induction false} RunCharges(s: Sys, es: seq<Event>, p: TaskId)
    requires Inv(s) && Stamped(s) && Possible(s, es) && AllHonest(s, es) && p < |s.tasks|
    ensures p < |Final(s, es).tasks| && Total(Final(s, es), p) == Total(s, p) + TimeOn(s, es, p)
    decreases |es|
  {
    if es != [] {
      StepCharges(s, es[0], p);
      StepKeepsStamped(s, es[0]);
      StepKeepsInv(s, es[0]);
      RunCharges(Apply(s, es[0]), es[1..], p);
    }
  }

  lemma {:induction false} RunKeepsStamped(s: Sys, es: seq<Event>)
    requires Inv(s) && Stamped(s) && Possible(s, es) && AllHonest(s, es)
    ensures Inv(Final(s, es)) && Stamped(Final(s, es))
    decreases |es|
  {
    if es != [] {
      StepKeepsInv(s, es[0]);
      StepKeepsStamped(s, es[0]);
      RunKeepsStamped(Apply(s, es[0]), es[1..]);
    }
  }

  // From its fork on a task is charged for exactly the time it was on a CPU's
  // queue or current there.
  lemma ForkedTaskIsCharged(init: Sys, es: seq<Event>, c: CpuId, after: seq<Event>)
    requires Init(init) && (forall d :: 0 <= d < |init.rqs| ==> init.rqs[d].clock > 0)
    requires Possible(init, es) && AllHonest(init, es) && Enabled(Final(init, es), Fork(c))
    requires var s := Apply(Final(init, es), Fork(c)); Possible(s, after) && AllHonest(s, after)
    ensures var s, p := Apply(Final(init, es), Fork(c)), |Final(init, es).tasks|;
      p < |s.tasks| && p < |Final(s, after).tasks| && Total(Final(s, after), p) == TimeOn(s, after, p)
  {
    RunKeepsStamped(init, es);
    var s0 := Final(init, es);
    var s, p := Apply(s0, Fork(c)), |s0.tasks|;
    StepKeepsStamped(s0, Fork(c));
    StepKeepsInv(s0, Fork(c));
    ForkStartsAtZero(s0, c);
    RunCharges(s, after, p);
  }

  lemma ForkStartsAtZero(s: Sys, c: CpuId)
    requires Inv(s) && Enabled(s, Fork(c))
    ensures |Apply(s, Fork(c)).tasks| == |s.tasks| + 1 && Total(Apply(s, Fork(c)), |s.tasks|) == 0
  {
    forall d | 0 <= d < |s.rqs| ensures s.rqs[d].curr != Some(|s.tasks|) {
      assert CpuOk(s, d);
    }
  }

  // In particular a preempted task is charged the advance of its CPU's clock
  // until it is picked again.
  lemma PreemptedWaits(s: Sys, c: CpuId, p: TaskId, other: Option<TaskId>, now: nat, running: bool)
    requires Inv(s) && c < |s.rqs| && s.rqs[c].curr == Some(p) && p < |s.tasks| && s.tasks[p].rq == Some(c)
    requires Enabled(s, Switch(c, other, true)) && 0 < s.rqs[c].clock <= now
    requires var s2 := Apply(Apply(s, Switch(c, other, true)), Tick(c, now)); Enabled(s2, Switch(c, Some(p), running))
    ensures var s2 := Apply(Apply(s, Switch(c, other, true)), Tick(c, now));
      var s3 := Apply(s2, Switch(c, Some(p), running));
      && p < |s3.tasks|
      && s3.tasks[p].runDelay == s.tasks[p].runDelay + (now - s.rqs[c].clock)
      && s3.tasks[p].cpuBurst == s.tasks[p].cpuBurst + (s.rqs[c].clock - s.tasks[p].lastArrival)
  {
    assert CpuOk(s, c);
  }

  // And the condition is needed: a task that departs still queued and in another
  // state than TASK_RUNNING is not charged for its wait.
  lemma UnstampedWaitIsLost(s: Sys, c: CpuId, p: TaskId, other: Option<TaskId>, now: nat)
    requires Inv(s) && c < |s.rqs| && s.rqs[c].curr == Some(p) && p < |s.tasks| && s.tasks[p].rq == Some(c)
    requires Enabled(s, Switch(c, other, false)) && s.rqs[c].clock < now
    ensures var s1 := Apply(s, Switch(c, other, false));
      var s2 := Apply(s1, Tick(c, now));
      && p < |s1.tasks| && p < |s2.tasks|
      && Total(s2, p) == Total(s, p) && Advance(s1, Tick(c, now), p) == now - s.rqs[c].clock > 0
  {
    var s1 := Apply(s, Switch(c, other, false));
    var s2 := Apply(s1, Tick(c, now));
    assert CpuOk(s, c) && TaskOk(s, p);
    OneCurrent(s, c, p);
    StepKeepsInv(s, Switch(c, other, false));
    StepKeepsInv(s1, Tick(c, now));
    NowhereCurrent(s, c, p, other);
  }

  lemma NowhereCurrent(s: Sys, c: CpuId, p: TaskId, other: Option<TaskId>)
    requires Inv(s) && c < |s.rqs| && s.rqs[c].curr == Some(p) && p < |s.tasks| && s.tasks[p].rq == Some(c)
    requires Enabled(s, Switch(c, other, false))
    ensures forall d, now :: 0 <= d < |s.rqs| ==>
      Apply(Apply(s, Switch(c, other, false)), Tick(c, now)).rqs[d].curr != Some(p)
  {
    forall d | 0 <= d < |s.rqs| && d != c ensures s.rqs[d].curr != Some(p) {
      CurrentAtHome(s, p, c, d);
    }
  }

  // ---- Arrivals ------------------------------------------------------------------------------

  // pcount counts the times a task, and any task of a CPU, was switched to.
  lemma ArrivalsAreCounted(s: Sys, e: Event, p: TaskId, c: CpuId)
    requires Enabled(s, e) && p < |s.tasks| && c < |s.rqs|
    ensures p < |Apply(s, e).tasks| && |Apply(s, e).rqs| == |s.rqs|
    ensures Apply(s, e).tasks[p].pcount - s.tasks[p].pcount == if e.Switch? && e.next == Some(p) then 1 else 0
    ensures Apply(s, e).rqs[c].pcount - s.rqs[c].pcount == if e.Switch? && e.c == c && e.next.Some? then 1 else 0
  {
  }
}
