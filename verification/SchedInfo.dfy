// Run and wait time accounting: sched_info_queued/dequeued/arrive/depart and
// __sched_info_switch with the cpu_burst counter, update_rq_clock and the reset
// in sched_fork, on any number of CPUs.
module SchedInfo {
  import opened Common

  type TaskId = nat
  type CpuId = nat

  // lastQueued == 0 means not waiting. born and rq say when the task was forked
  // and where it is queued.
  datatype Info = Info(
    lastQueued: nat, lastArrival: nat, runDelay: int, pcount: nat, cpuBurst: int,
    born: nat, rq: Option<CpuId>)

  // idle accumulates the clock advances during which the idle task was current;
  // boot is the first clock value.
  datatype Rq = Rq(clock: nat, curr: Option<TaskId>, cpuTime: int, runDelay: int, pcount: nat, idle: nat, boot: nat)

  datatype Sys = Sys(tasks: seq<Info>, rqs: seq<Rq>)

  datatype Event =
    | Tick(c: CpuId, now: nat)                       // update_rq_clock
    | Fork(c: CpuId)                                 // sched_fork on CPU c
    | Enqueue(c: CpuId, p: TaskId)
    | Dequeue(c: CpuId, p: TaskId)
    | Switch(c: CpuId, next: Option<TaskId>, running: bool)   // running: prev->state == TASK_RUNNING

  // ---- The accounting functions ---------------------------------------------------

  // Differences of unsigned timestamps; NoUnderflow shows that they never wrap.
  function WaitOf(rq: Rq, t: Info): int {
    if t.lastQueued != 0 then rq.clock - t.lastQueued else 0
  }

  function Queued(rq: Rq, t: Info): Info {
    if t.lastQueued == 0 then t.(lastQueued := rq.clock) else t
  }

  function Dequeued(rq: Rq, t: Info): (Rq, Info) {
    var delta := WaitOf(rq, t);
    (rq.(runDelay := rq.runDelay + delta), t.(lastQueued := 0, runDelay := t.runDelay + delta))
  }

  function Arrive(rq: Rq, t: Info): (Rq, Info) {
    var delta := WaitOf(rq, t);
    (rq.(runDelay := rq.runDelay + delta, pcount := rq.pcount + 1),
     t.(lastQueued := 0, runDelay := t.runDelay + delta, lastArrival := rq.clock, pcount := t.pcount + 1))
  }

  function Depart(rq: Rq, t: Info, running: bool): (Rq, Info) {
    var delta := rq.clock - t.lastArrival;
    var rq' := rq.(cpuTime := rq.cpuTime + delta);
    var t' := t.(cpuBurst := t.cpuBurst + delta);
    (rq', if running then Queued(rq', t') else t')
  }

  // ---- The same, on the structures updated in place ----------------------------------

  class TaskStruct {
    var lastQueued: nat
    var lastArrival: nat
    var runDelay: int
    var pcount: nat
    var cpuBurst: int
    var born: nat
    var rq: Option<CpuId>

    function View(): Info
      reads this
    {
      Info(lastQueued, lastArrival, runDelay, pcount, cpuBurst, born, rq)
    }
  }

  class RunQueue {
    var clock: nat
    var curr: Option<TaskId>
    var cpuTime: int
    var runDelay: int
    var pcount: nat
    var idle: nat
    var boot: nat

    function View(): Rq
      reads this
    {
      Rq(clock, curr, cpuTime, runDelay, pcount, idle, boot)
    }

    // sched_info_queued
    method SchedInfoQueued(t: TaskStruct)
      modifies t`lastQueued
      ensures t.View() == Queued(View(), old(t.View()))
    {
      if t.lastQueued == 0 { t.lastQueued := clock; }
    }

    // sched_info_dequeued with rq_sched_info_dequeued
    method SchedInfoDequeued(t: TaskStruct)
      modifies this`runDelay, t`lastQueued, t`runDelay
      ensures (View(), t.View()) == Dequeued(old(View()), old(t.View()))
    {
      var delta := 0;
      if t.lastQueued != 0 { delta := clock - t.lastQueued; }
      t.lastQueued := 0;
      t.runDelay := t.runDelay + delta;
      runDelay := runDelay + delta;
    }

    // sched_info_arrive with rq_sched_info_arrive
    method SchedInfoArrive(t: TaskStruct)
      modifies this`runDelay, this`pcount, t`lastQueued, t`runDelay, t`lastArrival, t`pcount
      ensures (View(), t.View()) == Arrive(old(View()), old(t.View()))
    {
      var delta := 0;
      if t.lastQueued != 0 { delta := clock - t.lastQueued; }
      t.lastQueued := 0;
      t.runDelay := t.runDelay + delta;
      t.lastArrival := clock;
      t.pcount := t.pcount + 1;
      runDelay := runDelay + delta;
      pcount := pcount + 1;
    }

    // sched_info_depart with rq_sched_info_depart
    method SchedInfoDepart(t: TaskStruct, running: bool)
      modifies this`cpuTime, t`cpuBurst, t`lastQueued
      ensures (View(), t.View()) == Depart(old(View()), old(t.View()), running)
    {
      var delta := clock - t.lastArrival;
      t.cpuBurst := t.cpuBurst + delta;
      cpuTime := cpuTime + delta;
      if running { SchedInfoQueued(t); }
    }

    // __sched_info_switch; null stands for the idle task
    method SchedInfoSwitch(prev: TaskStruct?, next: TaskStruct?, running: bool)
      requires prev != next
      modifies this, prev, next
      ensures prev != null ==> prev.View() == Depart(old(View()), old(prev.View()), running).1
      ensures var mid := if prev != null then Depart(old(View()), old(prev.View()), running).0 else old(View());
        if next != null then (View(), next.View()) == Arrive(mid, old(next.View())) else View() == mid
    {
      if prev != null { SchedInfoDepart(prev, running); }
      if next != null { SchedInfoArrive(next); }
    }
  }

  // ---- Events ---------------------------------------------------------------------------

  predicate Enabled(s: Sys, e: Event) {
    match e
    case Tick(c, _) => c < |s.rqs|
    case Fork(c) => c < |s.rqs|
    case Enqueue(c, p) => c < |s.rqs| && p < |s.tasks| && s.tasks[p].rq.None?
      && forall d :: 0 <= d < |s.rqs| ==> s.rqs[d].curr != Some(p)
    case Dequeue(c, p) => c < |s.rqs| && p < |s.tasks| && s.tasks[p].rq == Some(c)
    case Switch(c, next, running) =>
      && c < |s.rqs| && s.rqs[c].curr != next
      && (next.Some? ==> next.value < |s.tasks| && s.tasks[next.value].rq == Some(c))
      && (s.rqs[c].curr.Some? ==>
           s.rqs[c].curr.value < |s.tasks| && (running ==> s.tasks[s.rqs[c].curr.value].rq == Some(c)))
  }

  function Put(s: Sys, c: CpuId, rq: Rq, p: TaskId, t: Info): Sys
    requires c < |s.rqs| && p < |s.tasks|
  {
    Sys(s.tasks[p := t], s.rqs[c := rq])
  }

  // __sched_info_switch, then rq->curr = next
  function DepartStep(s: Sys, c: CpuId, running: bool): Sys
    requires c < |s.rqs| && (s.rqs[c].curr.Some? ==> s.rqs[c].curr.value < |s.tasks|)
  {
    if s.rqs[c].curr.None? then s
    else
      var p := s.rqs[c].curr.value;
      var (rq, t) := Depart(s.rqs[c], s.tasks[p], running);
      Put(s, c, rq.(curr := None), p, t)
  }

  function ArriveStep(s: Sys, c: CpuId, next: Option<TaskId>): Sys
    requires c < |s.rqs| && (next.Some? ==> next.value < |s.tasks|)
  {
    if next.None? then s
    else
      var (rq, t) := Arrive(s.rqs[c], s.tasks[next.value]);
      Put(s, c, rq.(curr := next), next.value, t)
  }

  function Apply(s: Sys, e: Event): Sys
    requires Enabled(s, e)
  {
    match e
    case Tick(c, now) =>
      var rq := s.rqs[c];
      var delta := if now > rq.clock then now - rq.clock else 0;
      s.(rqs := s.rqs[c := rq.(clock := rq.clock + delta,
        idle := if rq.curr.None? then rq.idle + delta else rq.idle)])
    case Fork(c) => s.(tasks := s.tasks + [Info(0, 0, 0, 0, 0, s.rqs[c].clock, None)])
    case Enqueue(c, p) => s.(tasks := s.tasks[p := Queued(s.rqs[c], s.tasks[p]).(rq := Some(c))])
    case Dequeue(c, p) =>
      var (rq, t) := Dequeued(s.rqs[c], s.tasks[p]);
      Put(s, c, rq, p, t.(rq := None))
    case Switch(c, next, running) => ArriveStep(DepartStep(s, c, running), c, next)
  }

  // ---- Sums --------------------------------------------------------------------------------

  function BurstSum(ts: seq<Info>): int { if ts == [] then 0 else ts[0].cpuBurst + BurstSum(ts[1..]) }
  function DelaySum(ts: seq<Info>): int { if ts == [] then 0 else ts[0].runDelay + DelaySum(ts[1..]) }
  function BusySum(rqs: seq<Rq>): int { if rqs == [] then 0 else rqs[0].cpuTime + BusySum(rqs[1..]) }
  function RqDelaySum(rqs: seq<Rq>): int { if rqs == [] then 0 else rqs[0].runDelay + RqDelaySum(rqs[1..]) }

  lemma {:induction false} TaskSums(ts: seq<Info>, p: nat, t: Info)
    requires p < |ts|
    ensures BurstSum(ts[p := t]) == BurstSum(ts) - ts[p].cpuBurst + t.cpuBurst
    ensures DelaySum(ts[p := t]) == DelaySum(ts) - ts[p].runDelay + t.runDelay
  {
    if p == 0 {
      assert ts[p := t][1..] == ts[1..];
    } else {
      assert ts[p := t][1..] == ts[1..][p - 1 := t];
      TaskSums(ts[1..], p - 1, t);
    }
  }

  lemma {:induction false} RqSums(rqs: seq<Rq>, c: nat, rq: Rq)
    requires c < |rqs|
    ensures BusySum(rqs[c := rq]) == BusySum(rqs) - rqs[c].cpuTime + rq.cpuTime
    ensures RqDelaySum(rqs[c := rq]) == RqDelaySum(rqs) - rqs[c].runDelay + rq.runDelay
  {
    if c == 0 {
      assert rqs[c := rq][1..] == rqs[1..];
    } else {
      assert rqs[c := rq][1..] == rqs[1..][c - 1 := rq];
      RqSums(rqs[1..], c - 1, rq);
    }
  }

  lemma {:induction false} ForkSums(ts: seq<Info>, t: Info)
    requires t.cpuBurst == 0 && t.runDelay == 0
    ensures BurstSum(ts + [t]) == BurstSum(ts) && DelaySum(ts + [t]) == DelaySum(ts)
  {
    if ts != [] {
      assert (ts + [t])[1..] == ts[1..] + [t];
      ForkSums(ts[1..], t);
    } else {
      assert ([] + [t])[1..] == [];
    }
  }

  // ---- Conservation ------------------------------------------------------------------------

  ghost predicate Conserved(s: Sys) {
    BurstSum(s.tasks) == BusySum(s.rqs) && DelaySum(s.tasks) == RqDelaySum(s.rqs)
  }

  lemma PutConserves(s: Sys, c: CpuId, rq: Rq, p: TaskId, t: Info)
    requires c < |s.rqs| && p < |s.tasks| && Conserved(s)
    requires rq.cpuTime - s.rqs[c].cpuTime == t.cpuBurst - s.tasks[p].cpuBurst
    requires rq.runDelay - s.rqs[c].runDelay == t.runDelay - s.tasks[p].runDelay
    ensures Conserved(Put(s, c, rq, p, t))
  {
    TaskSums(s.tasks, p, t);
    RqSums(s.rqs, c, rq);
  }

  lemma StepConserves(s: Sys, e: Event)
    requires Conserved(s) && Enabled(s, e)
    ensures Conserved(Apply(s, e))
  {
    match e
    case Tick(c, now) => RqSums(s.rqs, c, Apply(s, e).rqs[c]);
    case Fork(c) => ForkSums(s.tasks, Info(0, 0, 0, 0, 0, s.rqs[c].clock, None));
    case Enqueue(c, p) => TaskSums(s.tasks, p, Queued(s.rqs[c], s.tasks[p]).(rq := Some(c)));
    case Dequeue(c, p) =>
      var (rq, t) := Dequeued(s.rqs[c], s.tasks[p]);
      PutConserves(s, c, rq, p, t.(rq := None));
    case Switch(c, next, running) =>
      if s.rqs[c].curr.Some? {
        var p := s.rqs[c].curr.value;
        var (rq, t) := Depart(s.rqs[c], s.tasks[p], running);
        PutConserves(s, c, rq.(curr := None), p, t);
      }
      var d := DepartStep(s, c, running);
      if next.Some? {
        var (rq, t) := Arrive(d.rqs[c], d.tasks[next.value]);
        PutConserves(d, c, rq.(curr := next), next.value, t);
      }
  }

  // ---- Timestamps and the CPU's time ----------------------------------------------------------

  ghost predicate TaskOk(s: Sys, p: TaskId)
    requires p < |s.tasks|
  {
    var t := s.tasks[p];
    && (t.rq.Some? ==> t.rq.value < |s.rqs|)
    && (t.lastQueued != 0 ==> t.rq.Some? && t.lastQueued <= s.rqs[t.rq.value].clock)
  }

  function Slice(s: Sys, c: CpuId): int
    requires c < |s.rqs|
  {
    if s.rqs[c].curr.Some? && s.rqs[c].curr.value < |s.tasks|
    then s.rqs[c].clock - s.tasks[s.rqs[c].curr.value].lastArrival else 0
  }

  // A CPU's busy time, idle time and current slice make up its clock advance.
  ghost predicate CpuOk(s: Sys, c: CpuId)
    requires c < |s.rqs|
  {
    var rq := s.rqs[c];
    && (rq.curr.Some? ==>
          && rq.curr.value < |s.tasks|
          && var t := s.tasks[rq.curr.value];
             t.lastArrival <= rq.clock && t.lastQueued == 0 && (t.rq.None? || t.rq == Some(c)))
    && rq.cpuTime + rq.idle + Slice(s, c) == rq.clock - rq.boot
  }

  ghost predicate Inv(s: Sys) {
    && (forall p :: 0 <= p < |s.tasks| ==> TaskOk(s, p))
    && (forall c :: 0 <= c < |s.rqs| ==> CpuOk(s, c))
    && (forall c, d :: 0 <= c < d < |s.rqs| && s.rqs[c].curr.Some? ==> s.rqs[c].curr != s.rqs[d].curr)
  }

  // A queued task is current nowhere but, possibly, on its own CPU.
  lemma CurrentAtHome(s: Sys, p: TaskId, c: CpuId, d: CpuId)
    requires Inv(s) && p < |s.tasks| && s.tasks[p].rq == Some(c) && d < |s.rqs| && d != c
    ensures s.rqs[d].curr != Some(p)
  {
    assert CpuOk(s, d);
  }

  lemma OtherCpus(s: Sys, s': Sys, c: CpuId, p: TaskId, d: CpuId)
    requires Inv(s) && c < |s.rqs| && d < |s.rqs| && d != c && p < |s.tasks|
    requires |s'.rqs| == |s.rqs| && |s'.tasks| == |s.tasks|
    requires s' == Put(s, c, s'.rqs[c], p, s'.tasks[p]) && s.rqs[d].curr != Some(p)
    ensures CpuOk(s', d)
  {
    assert CpuOk(s, d);
  }

  // One task and its CPU change; the task is current on no other CPU.
  lemma PutKeepsInv(s: Sys, c: CpuId, rq: Rq, p: TaskId, t: Info)
    requires Inv(s) && c < |s.rqs| && p < |s.tasks| && rq.clock >= s.rqs[c].clock
    requires forall d :: 0 <= d < |s.rqs| && d != c ==>
      s.rqs[d].curr != Some(p) && (rq.curr.Some? ==> s.rqs[d].curr != rq.curr)
    requires CpuOk(Put(s, c, rq, p, t), c) && TaskOk(Put(s, c, rq, p, t), p)
    ensures Inv(Put(s, c, rq, p, t))
  {
    var s' := Put(s, c, rq, p, t);
    forall d | 0 <= d < |s'.rqs| ensures CpuOk(s', d) {
      if d != c { OtherCpus(s, s', c, p, d); }
    }
    forall q | 0 <= q < |s'.tasks| ensures TaskOk(s', q) {
      if q != p { assert TaskOk(s, q); }
    }
  }

  lemma TickKeepsInv(s: Sys, e: Event)
    requires Inv(s) && Enabled(s, e) && e.Tick?
    ensures Inv(Apply(s, e))
  {
    var s', c := Apply(s, e), e.c;
    forall d | 0 <= d < |s'.rqs| ensures CpuOk(s', d) { assert CpuOk(s, d); }
    forall q | 0 <= q < |s'.tasks| ensures TaskOk(s', q) { assert TaskOk(s, q); }
  }

  lemma ForkKeepsInv(s: Sys, e: Event)
    requires Inv(s) && Enabled(s, e) && e.Fork?
    ensures Inv(Apply(s, e))
  {
    var s' := Apply(s, e);
    forall d | 0 <= d < |s'.rqs| ensures CpuOk(s', d) { assert CpuOk(s, d); }
    forall q | 0 <= q < |s'.tasks| ensures TaskOk(s', q) { if q < |s.tasks| { assert TaskOk(s, q); } }
  }

  lemma QueueKeepsInv(s: Sys, e: Event)
    requires Inv(s) && Enabled(s, e) && (e.Enqueue? || e.Dequeue?)
    ensures Inv(Apply(s, e))
  {
    var s', c, p := Apply(s, e), e.c, e.p;
    assert TaskOk(s, p) && CpuOk(s, c);
    forall d | 0 <= d < |s.rqs| && d != c ensures s.rqs[d].curr != Some(p) {
      if e.Dequeue? { CurrentAtHome(s, p, c, d); }
    }
    assert s' == Put(s, c, s'.rqs[c], p, s'.tasks[p]);
    PutKeepsInv(s, c, s'.rqs[c], p, s'.tasks[p]);
  }

  lemma DepartKeepsInv(s: Sys, c: CpuId, running: bool)
    requires Inv(s) && c < |s.rqs|
    requires s.rqs[c].curr.Some? ==>
      s.rqs[c].curr.value < |s.tasks| && (running ==> s.tasks[s.rqs[c].curr.value].rq == Some(c))
    ensures Inv(DepartStep(s, c, running))
  {
    if s.rqs[c].curr.Some? {
      var s', p := DepartStep(s, c, running), s.rqs[c].curr.value;
      assert CpuOk(s, c) && TaskOk(s, p);
      PutKeepsInv(s, c, s'.rqs[c], p, s'.tasks[p]);
    }
  }

  lemma ArriveKeepsInv(s: Sys, c: CpuId, next: Option<TaskId>)
    requires Inv(s) && c < |s.rqs| && s.rqs[c].curr.None?
    requires next.Some? ==> next.value < |s.tasks| && s.tasks[next.value].rq == Some(c)
    ensures Inv(ArriveStep(s, c, next))
  {
    if next.Some? {
      var s', p := ArriveStep(s, c, next), next.value;
      assert CpuOk(s, c) && TaskOk(s, p);
      forall d | 0 <= d < |s.rqs| && d != c ensures s.rqs[d].curr != Some(p) {
        CurrentAtHome(s, p, c, d);
      }
      PutKeepsInv(s, c, s'.rqs[c], p, s'.tasks[p]);
    }
  }

  lemma StepKeepsInv(s: Sys, e: Event)
    requires Inv(s) && Enabled(s, e)
    ensures Inv(Apply(s, e))
  {
    match e
    case Tick(_, _) => TickKeepsInv(s, e);
    case Fork(_) => ForkKeepsInv(s, e);
    case Enqueue(_, _) => QueueKeepsInv(s, e);
    case Dequeue(_, _) => QueueKeepsInv(s, e);
    case Switch(c, next, running) =>
      DepartKeepsInv(s, c, running);
      ArriveKeepsInv(DepartStep(s, c, running), c, next);
  }

  // ---- Age ----------------------------------------------------------------------------------------

  // The latest clock sample of any CPU.
  function Newest(rqs: seq<Rq>): (now: nat)
    ensures forall c :: 0 <= c < |rqs| ==> rqs[c].clock <= now
    ensures rqs != [] ==> exists c :: 0 <= c < |rqs| && rqs[c].clock == now
  {
    if rqs == [] then 0
    else
      var last, rest := rqs[|rqs| - 1].clock, Newest(rqs[..|rqs| - 1]);
      assert |rqs| > 1 ==> exists c :: 0 <= c < |rqs| - 1 && rqs[c].clock == rest by {
        if |rqs| > 1 {
          var c :| 0 <= c < |rqs[..|rqs| - 1]| && rqs[..|rqs| - 1][c].clock == rest;
          assert rqs[c].clock == rest;
        }
      }
      assert rqs[|rqs| - 1].clock == last;
      assert forall c :: 0 <= c < |rqs| - 1 ==> rqs[..|rqs| - 1][c] == rqs[c];
      if last > rest then last else rest
  }

  lemma NewestGrows(rqs: seq<Rq>, rqs': seq<Rq>)
    requires |rqs| == |rqs'| && forall c :: 0 <= c < |rqs| ==> rqs[c].clock <= rqs'[c].clock
    ensures Newest(rqs) <= Newest(rqs')
  {
    if rqs != [] {
      var c :| 0 <= c < |rqs| && rqs[c].clock == Newest(rqs);
    }
  }

  // The earliest time by which the accounted time can have passed since the fork.
  function Spent(t: Info): int { t.born + t.cpuBurst + t.runDelay }

  // Accounted time ends where the current run or wait began, and not later than
  // the clock of the CPU the task is queued on.
  ghost predicate AgeOk(s: Sys, p: TaskId)
    requires p < |s.tasks|
  {
    var t := s.tasks[p];
    && Spent(t) <= Newest(s.rqs)
    && (t.lastQueued != 0 ==> Spent(t) <= t.lastQueued)
    && (forall c :: 0 <= c < |s.rqs| && t.rq == Some(c) ==> Spent(t) <= s.rqs[c].clock)
    && (forall c :: 0 <= c < |s.rqs| && s.rqs[c].curr == Some(p) ==> Spent(t) <= t.lastArrival)
  }

  ghost predicate AgeInv(s: Sys) {
    forall p :: 0 <= p < |s.tasks| ==> AgeOk(s, p)
  }

  // A task is stamped on a CPU whose clock is not behind its accounted time.
  predicate Timely(s: Sys, e: Event)
    requires Enabled(s, e)
  {
    e.Enqueue? ==> Spent(s.tasks[e.p]) <= s.rqs[e.c].clock
  }

  // What a change of one task and its CPU must show.
  lemma PutKeepsAge(s: Sys, c: CpuId, rq: Rq, p: TaskId, t: Info)
    requires AgeInv(s) && c < |s.rqs| && p < |s.tasks| && rq.clock == s.rqs[c].clock
    requires rq.curr.None? || rq.curr == s.rqs[c].curr || rq.curr == Some(p)
    requires AgeOk(Put(s, c, rq, p, t), p)
    ensures AgeInv(Put(s, c, rq, p, t))
  {
    var s' := Put(s, c, rq, p, t);
    NewestGrows(s.rqs, s'.rqs);
    forall q | 0 <= q < |s'.tasks| ensures AgeOk(s', q) {
      assert AgeOk(s, q);
    }
  }

  lemma DepartKeepsAge(s: Sys, c: CpuId, running: bool)
    requires Inv(s) && AgeInv(s) && c < |s.rqs|
    requires s.rqs[c].curr.Some? ==>
      s.rqs[c].curr.value < |s.tasks| && (running ==> s.tasks[s.rqs[c].curr.value].rq == Some(c))
    ensures AgeInv(DepartStep(s, c, running))
  {
    if s.rqs[c].curr.Some? {
      var p := s.rqs[c].curr.value;
      var (rq, t) := Depart(s.rqs[c], s.tasks[p], running);
      assert AgeOk(s, p) && CpuOk(s, c);
      var s' := Put(s, c, rq.(curr := None), p, t);
      NewestGrows(s.rqs, s'.rqs);
      NewestGrows(s'.rqs, s.rqs);
      assert AgeOk(s', p);
      PutKeepsAge(s, c, rq.(curr := None), p, t);
    }
  }

  lemma ArriveKeepsAge(s: Sys, c: CpuId, next: Option<TaskId>)
    requires Inv(s) && AgeInv(s) && c < |s.rqs|
    requires next.Some? ==> next.value < |s.tasks| && s.tasks[next.value].rq == Some(c)
    ensures AgeInv(ArriveStep(s, c, next))
  {
    if next.Some? {
      var p := next.value;
      var (rq, t) := Arrive(s.rqs[c], s.tasks[p]);
      assert AgeOk(s, p);
      var s' := Put(s, c, rq.(curr := next), p, t);
      NewestGrows(s.rqs, s'.rqs);
      assert AgeOk(s', p);
      PutKeepsAge(s, c, rq.(curr := next), p, t);
    }
  }

  lemma QueueKeepsAge(s: Sys, e: Event)
    requires Inv(s) && AgeInv(s) && Enabled(s, e) && Timely(s, e) && (e.Enqueue? || e.Dequeue?)
    ensures AgeInv(Apply(s, e))
  {
    var s', c, p := Apply(s, e), e.c, e.p;
    assert AgeOk(s, p) && TaskOk(s, p) && CpuOk(s, c);
    assert s' == Put(s, c, s'.rqs[c], p, s'.tasks[p]);
    NewestGrows(s.rqs, s'.rqs);
    forall d | 0 <= d < |s'.rqs| && s'.rqs[d].curr == Some(p) ensures Spent(s'.tasks[p]) <= s'.tasks[p].lastArrival {
      assert CpuOk(s, d);
    }
    assert AgeOk(s', p);
    PutKeepsAge(s, c, s'.rqs[c], p, s'.tasks[p]);
  }

  lemma StepKeepsAge(s: Sys, e: Event)
    requires Inv(s) && AgeInv(s) && Enabled(s, e) && Timely(s, e)
    ensures AgeInv(Apply(s, e))
  {
    var s' := Apply(s, e);
    if e.Switch? {
      DepartKeepsInv(s, e.c, e.running);
      DepartKeepsAge(s, e.c, e.running);
      ArriveKeepsAge(DepartStep(s, e.c, e.running), e.c, e.next);
    } else if e.Enqueue? || e.Dequeue? {
      QueueKeepsAge(s, e);
    } else {
      NewestGrows(s.rqs, s'.rqs);
      forall p | 0 <= p < |s'.tasks| ensures AgeOk(s', p) {
        if p < |s.tasks| {
          assert AgeOk(s, p);
        } else {
          forall c | 0 <= c < |s.rqs| ensures s.rqs[c].curr != Some(p) {
            assert CpuOk(s, c);
          }
        }
      }
    }
  }

  // ---- Runs -------------------------------------------------------------------------------------------

  ghost predicate Init(s: Sys) {
    s.tasks == [] && forall c :: 0 <= c < |s.rqs| ==> s.rqs[c] == Rq(s.rqs[c].boot, None, 0, 0, 0, 0, s.rqs[c].boot)
  }

  lemma {:induction false} ZeroSums(rqs: seq<Rq>)
    requires forall c :: 0 <= c < |rqs| ==> rqs[c].cpuTime == 0 && rqs[c].runDelay == 0
    ensures BusySum(rqs) == 0 && RqDelaySum(rqs) == 0
  {
    if rqs != [] { ZeroSums(rqs[1..]); }
  }

  ghost predicate Possible(s: Sys, es: seq<Event>)
    decreases |es|
  {
    es == [] || (Enabled(s, es[0]) && Possible(Apply(s, es[0]), es[1..]))
  }

  ghost function Final(s: Sys, es: seq<Event>): Sys
    requires Possible(s, es)
    decreases |es|
  {
    if es == [] then s else Final(Apply(s, es[0]), es[1..])
  }

  lemma {:induction false} RunKeeps(s: Sys, es: seq<Event>)
    requires Inv(s) && Conserved(s) && Possible(s, es)
    ensures Inv(Final(s, es)) && Conserved(Final(s, es))
    decreases |es|
  {
    if es != [] {
      StepKeepsInv(s, es[0]);
      StepConserves(s, es[0]);
      RunKeeps(Apply(s, es[0]), es[1..]);
    }
  }

  // Over every run on any number of CPUs: what the tasks have used is what the
  // CPUs have given, for running as for waiting, and each CPU's busy time, idle
  // time and current slice add up to its clock advance.
  lemma TimeConservation(init: Sys, es: seq<Event>, c: CpuId)
    requires Init(init) && Possible(init, es)
    ensures var s := Final(init, es);
      && BurstSum(s.tasks) == BusySum(s.rqs) && DelaySum(s.tasks) == RqDelaySum(s.rqs)
      && (c < |s.rqs| ==> s.rqs[c].cpuTime + s.rqs[c].idle + Slice(s, c) == s.rqs[c].clock - s.rqs[c].boot)
  {
    ZeroSums(init.rqs);
    RunKeeps(init, es);
    assert c < |Final(init, es).rqs| ==> CpuOk(Final(init, es), c);
  }

  // No timestamp difference the accounting takes is ever negative.
  lemma NoUnderflow(init: Sys, es: seq<Event>, c: CpuId, p: TaskId)
    requires Init(init) && Possible(init, es)
    ensures var s := Final(init, es);
      && (c < |s.rqs| ==> Slice(s, c) >= 0)
      && (p < |s.tasks| && s.tasks[p].rq.Some? ==>
            s.tasks[p].rq.value < |s.rqs| && WaitOf(s.rqs[s.tasks[p].rq.value], s.tasks[p]) >= 0)
  {
    ZeroSums(init.rqs);
    RunKeeps(init, es);
    var s := Final(init, es);
    assert c < |s.rqs| ==> CpuOk(s, c);
    assert p < |s.tasks| ==> TaskOk(s, p);
  }

  // ---- A task's time within its age ----------------------------------------------------------

  ghost predicate AllTimely(s: Sys, es: seq<Event>)
    requires Possible(s, es)
    decreases |es|
  {
    es == [] || (Timely(s, es[0]) && AllTimely(Apply(s, es[0]), es[1..]))
  }

  lemma {:induction false} RunKeepsAge(s: Sys, es: seq<Event>)
    requires Inv(s) && AgeInv(s) && Possible(s, es) && AllTimely(s, es)
    ensures AgeInv(Final(s, es))
    decreases |es|
  {
    if es != [] {
      StepKeepsInv(s, es[0]);
      StepKeepsAge(s, es[0]);
      RunKeepsAge(Apply(s, es[0]), es[1..]);
    }
  }

  // On any number of CPUs, over every run that enqueues tasks timely, a task's
  // running and waiting time never exceed its age.
  lemma WithinAge(init: Sys, es: seq<Event>, p: TaskId)
    requires Init(init) && Possible(init, es) && AllTimely(init, es)
    ensures var s := Final(init, es);
      p < |s.tasks| ==> s.tasks[p].cpuBurst + s.tasks[p].runDelay <= Newest(s.rqs) - s.tasks[p].born
  {
    RunKeepsAge(init, es);
    var s := Final(init, es);
    assert p < |s.tasks| ==> AgeOk(s, p);
  }

  // One clock for all CPUs: an enqueue has just sampled it.
  ghost predicate OneClock(s: Sys, es: seq<Event>)
    requires Possible(s, es)
    decreases |es|
  {
    es == [] || ((es[0].Enqueue? ==> s.rqs[es[0].c].clock == Newest(s.rqs)) && OneClock(Apply(s, es[0]), es[1..]))
  }

  lemma {:induction false} OneClockIsTimely(s: Sys, es: seq<Event>)
    requires Inv(s) && AgeInv(s) && Possible(s, es) && OneClock(s, es)
    ensures AllTimely(s, es)
    decreases |es|
  {
    if es != [] {
      if es[0].Enqueue? { assert AgeOk(s, es[0].p); }
      StepKeepsInv(s, es[0]);
      StepKeepsAge(s, es[0]);
      OneClockIsTimely(Apply(s, es[0]), es[1..]);
    }
  }

  lemma WithinAgeOnOneClock(init: Sys, es: seq<Event>, p: TaskId)
    requires Init(init) && Possible(init, es) && OneClock(init, es)
    ensures var s := Final(init, es);
      p < |s.tasks| ==> s.tasks[p].cpuBurst + s.tasks[p].runDelay <= Newest(s.rqs) - s.tasks[p].born
  {
    OneClockIsTimely(init, es);
    WithinAge(init, es, p);
  }

  // A single CPU has one clock.
  lemma {:induction false} OneCpuOneClock(s: Sys, es: seq<Event>)
    requires |s.rqs| == 1 && Possible(s, es)
    ensures OneClock(s, es)
    decreases |es|
  {
    if es != [] {
      OneCpuOneClock(Apply(s, es[0]), es[1..]);
    }
  }

  lemma WithinAgeOnOneCpu(init: Sys, es: seq<Event>, p: TaskId)
    requires Init(init) && |init.rqs| == 1 && Possible(init, es)
    ensures var s := Final(init, es);
      p < |s.tasks| ==> s.tasks[p].cpuBurst + s.tasks[p].runDelay <= Newest(s.rqs) - s.tasks[p].born
  {
    OneCpuOneClock(init, es);
    WithinAgeOnOneClock(init, es, p);
  }

  // The task has more time on its account than has passed since its fork.
  predicate Overrun(s: Sys, p: TaskId) {
    p < |s.tasks| && s.tasks[p].cpuBurst + s.tasks[p].runDelay > Newest(s.rqs) - s.tasks[p].born
  }

  // Enqueued and at once switched to, a task has waited for no time.
  lemma PickedAtOnce(s: Sys, c: CpuId, p: TaskId)
    requires Inv(s) && Enabled(s, Enqueue(c, p))
    ensures var s1 := Apply(s, Enqueue(c, p));
      Enabled(s1, Switch(c, Some(p), false)) &&
      var s2 := Apply(s1, Switch(c, Some(p), false));
      && |s2.rqs| == |s.rqs| && |s2.tasks| == |s.tasks|
           && (forall d :: 0 <= d < |s.rqs| ==> s2.rqs[d].clock == s.rqs[d].clock)
      && s2.rqs[c].curr == Some(p) && s2.tasks[p].lastArrival == s.rqs[c].clock
      && Spent(s2.tasks[p]) == Spent(s.tasks[p])
  {
    assert CpuOk(s, c) && TaskOk(s, p);
  }

  // The condition is exact: a task stamped behind its accounted time exceeds its
  // age once it has run up to a clock no older than the others.
  lemma LateEnqueueOverruns(s: Sys, c: CpuId, p: TaskId, now: nat) returns (es: seq<Event>)
    requires Inv(s) && Enabled(s, Enqueue(c, p)) && !Timely(s, Enqueue(c, p)) && Newest(s.rqs) <= now
    ensures |es| == 4 && es[0] == Enqueue(c, p) && Possible(s, es) && Overrun(Final(s, es), p)
  {
    PickedAtOnce(s, c, p);
    var s1 := Apply(s, Enqueue(c, p));
    var s2 := Apply(s1, Switch(c, Some(p), false));
    var s3 := Apply(s2, Tick(c, now));
    var s4 := Apply(s3, Switch(c, None, false));
    assert forall d :: 0 <= d < |s4.rqs| ==> s4.rqs[d].clock <= now;
    assert Spent(s4.tasks[p]) == Spent(s.tasks[p]) + now - s.rqs[c].clock;
    es := [Enqueue(c, p), Switch(c, Some(p), false), Tick(c, now), Switch(c, None, false)];
    FourSteps(s, s1, s2, s3, es);
  }

  lemma FourSteps(s: Sys, s1: Sys, s2: Sys, s3: Sys, es: seq<Event>)
    requires |es| == 4
    requires Enabled(s, es[0]) && s1 == Apply(s, es[0]) && Enabled(s1, es[1]) && s2 == Apply(s1, es[1])
    requires Enabled(s2, es[2]) && s3 == Apply(s2, es[2]) && Enabled(s3, es[3])
    ensures Possible(s, es) && Final(s, es) == Apply(s3, es[3])
  {
    var s4 := Apply(s3, es[3]);
    assert es[1..][1..] == es[2..] && es[2..][1..] == es[3..] && es[3..][1..] == [];
    assert Possible(s4, []);
    assert Possible(s3, es[3..]) && Final(s3, es[3..]) == s4;
    assert Possible(s2, es[2..]) && Final(s2, es[2..]) == s4;
    assert Possible(s1, es[1..]) && Final(s1, es[1..]) == s4;
  }

  // Two CPUs whose clocks disagree, and a task just forked on the one ahead.
  const APART := Sys([], [Rq(5, None, 0, 0, 0, 0, 5), Rq(1, None, 0, 0, 0, 0, 1)])
  const FORKED := Sys([Info(0, 0, 0, 0, 0, 5, None)], APART.rqs)

  lemma ForkedIsReached(es: seq<Event>)
    requires Possible(FORKED, es)
    ensures Init(APART) && Inv(FORKED)
    ensures Possible(APART, [Fork(0)] + es) && Final(APART, [Fork(0)] + es) == Final(FORKED, es)
  {
    assert Inv(APART);
    assert Apply(APART, Fork(0)) == FORKED;
    StepKeepsInv(APART, Fork(0));
    assert ([Fork(0)] + es)[1..] == es;
  }

  // Enqueued on the CPU behind, it can exceed its age.
  lemma AgeCanBeExceeded()
    ensures exists init, es, p: TaskId :: Init(init) && Possible(init, es) && Overrun(Final(init, es), p)
  {
    ForkedIsReached([]);
    var es := LateEnqueueOverruns(FORKED, 1, 0, Newest(FORKED.rqs));
    ForkedIsReached(es);
  }
}
