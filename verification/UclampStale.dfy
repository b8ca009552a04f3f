// What survives of the clamp aggregation when uclamp_update_active leaves
// UCLAMP_FLAG_IDLE set with a task active: the bound on active clamps, until an
// enqueue on such a queue resets both of its values below a clamp.
module UclampStale {
  import opened Common
  import opened Uclamp

  // A bucket in use holds a value of its own range, at least every clamp in it;
  // every clamp is at most the queue's value.
  ghost predicate Capped(s: Side, act: map<TaskId, nat>) {
    && Sized(s)
    && (forall b :: 0 <= b < |s.tasks| && s.tasks[b] > 0 ==> BucketId(|s.tasks|, s.top[b]) == b)
    && (forall p :: p in act ==> act[p] <= s.top[BucketId(|s.tasks|, act[p])])
    && (forall p :: p in act ==> act[p] <= s.value)
  }

  // Adding a task keeps that, unless the idle flag resets the value below a clamp.
  lemma IncCappedIff(s: Side, idle: bool, act: map<TaskId, nat>, p: TaskId, v: nat)
    requires Counted(s, act) && Capped(s, act) && p !in act
    ensures Capped(Inc(s, idle, v), act[p := v]) <==> (idle ==> forall q :: q in act ==> act[q] <= v)
  {
    var n, t := |s.tasks|, Inc(s, idle, v);
    forall q | q in act ensures s.tasks[BucketId(n, act[q])] > 0 {
      assert q in InBucket(n, act, BucketId(n, act[q]));
    }
    if idle && exists q :: q in act && act[q] > v {
      var q :| q in act && act[q] > v;
      assert q in act[p := v] && act[p := v][q] > t.value;
    }
  }

  lemma DecCapped(s: Side, isMax: bool, act: map<TaskId, nat>, p: TaskId)
    requires Counted(s, act) && Capped(s, act) && p in act
    ensures Capped(Dec(s, isMax, act[p]).0, act - {p})
    ensures Dec(s, isMax, act[p]).1 ==> act - {p} == map[]
  {
    DecInUse(s, isMax, act, p);
    var (t, idle) := Dec(s, isMax, act[p]);
    var n := |t.tasks|;
    forall b | 0 <= b < n && t.tasks[b] > 0 ensures BucketId(n, t.top[b]) == b {
      assert s.tasks[b] > 0;
    }
    forall q | q in act - {p} ensures act[q] <= t.value {
      if t.value != s.value {
        TopmostBounds(n, t.tasks, t.top, BucketId(n, act[q]));
      }
    }
    assert idle ==> forall b :: 0 <= b < n ==> t.tasks[b] == 0;
    assert idle ==> (act - {p}).Keys == {};
  }

  // An update of the task's clamp, the flag being set at most for that task alone.
  lemma UpdateCapped(s: Side, isMax: bool, idle: bool, act: map<TaskId, nat>, p: TaskId, v: nat)
    requires Counted(s, act) && Capped(s, act) && p in act && (idle ==> act.Keys == {p})
    ensures var (t, empty) := Dec(s, isMax, act[p]);
      && Capped(Inc(t, idle || empty, v), (act - {p})[p := v])
      && (idle || empty ==> act.Keys == {p})
  {
    DecCapped(s, isMax, act, p);
    DecCounted(s, isMax, act, p);
    var (t, empty) := Dec(s, isMax, act[p]);
    assert idle || empty ==> act - {p} == map[] && act.Keys == {p} by {
      assert empty ==> act.Keys == (act - {p}).Keys + {p};
    }
    IncCappedIff(t, idle || empty, act - {p}, p, v);
  }

  ghost predicate RqCapped(rq: Rq, amin: map<TaskId, nat>, amax: map<TaskId, nat>) {
    && Capped(rq.min, amin) && Capped(rq.max, amax)
    && (rq.idle ==> forall p, q :: p in amax && q in amax ==> p == q)
  }

  ghost predicate CappedAt(s: Sys, c: CpuId)
    requires c < |s.rqs|
  {
    RqCapped(s.rqs[c], Act(s, c, Min), Act(s, c, Max))
  }

  ghost predicate CapInv(s: Sys) {
    CountInv(s) && forall c :: 0 <= c < |s.rqs| ==> CappedAt(s, c)
  }

  // An enqueue on a queue flagged idle, with a clamp below that of its active task.
  ghost predicate Lossy(s: Sys, e: Event)
    requires Shape(s) && Enabled(s, e)
  {
    && e.Enqueue? && s.used && e.enabled && s.rqs[e.c].idle
    && exists q ::
         && q in s.tasks && s.tasks[q].cpu == Some(e.c) && s.tasks[q].min.active
         && (e.vmin < s.tasks[q].min.value || e.vmax < s.tasks[q].max.value)
  }

  lemma Counts(s: Sys, c: CpuId)
    requires CountInv(s) && c < |s.rqs|
    ensures Counted(s.rqs[c].min, Act(s, c, Min)) && Counted(s.rqs[c].max, Act(s, c, Max))
    ensures Act(s, c, Min).Keys == Act(s, c, Max).Keys
  {
    assert Counted(Get(s.rqs[c], Min), Act(s, c, Min)) && Counted(Get(s.rqs[c], Max), Act(s, c, Max));
    SameKeys(s, c);
  }

  lemma IncRqCappedIff(rq: Rq, n: nat, amin: map<TaskId, nat>, amax: map<TaskId, nat>, p: TaskId, vmin: nat,
      vmax: nat)
    requires SizedRq(n, rq) && RqCapped(rq, amin, amax) && Counted(rq.min, amin) && Counted(rq.max, amax)
    requires p !in amin && p !in amax
    ensures RqCapped(RqInc(n, rq, vmin, vmax), amin[p := vmin], amax[p := vmax]) <==>
      (rq.idle ==> (forall q :: q in amin ==> amin[q] <= vmin) && (forall q :: q in amax ==> amax[q] <= vmax))
  {
    IncCappedIff(rq.min, rq.idle, amin, p, vmin);
    IncCappedIff(rq.max, rq.idle, amax, p, vmax);
  }

  lemma EnqueueCappedIff(s: Sys, e: Event)
    requires CapInv(s) && Enabled(s, e) && e.Enqueue? && s.used && e.enabled
    ensures |Apply(s, e).rqs| == |s.rqs| && (CappedAt(Apply(s, e), e.c) <==> !Lossy(s, e))
  {
    var c, p := e.c, e.p;
    assert CappedAt(s, c);
    Counts(s, c);
    ActElsewhere(s, Apply(s, e), p, c, Min);
    ActElsewhere(s, Apply(s, e), p, c, Max);
    IncRqCappedIff(s.rqs[c], s.n, Act(s, c, Min), Act(s, c, Max), p, e.vmin, e.vmax);
    if s.rqs[c].idle { LossyClamps(s, e); }
  }

  // The same condition on the active clamps.
  lemma LossyClamps(s: Sys, e: Event)
    requires Shape(s) && Enabled(s, e) && e.Enqueue? && s.used && e.enabled && s.rqs[e.c].idle
    ensures var amin, amax := Act(s, e.c, Min), Act(s, e.c, Max);
      !Lossy(s, e) <==>
      (forall q :: q in amin ==> amin[q] <= e.vmin) && (forall q :: q in amax ==> amax[q] <= e.vmax)
  {
    var amin, amax := Act(s, e.c, Min), Act(s, e.c, Max);
    if Lossy(s, e) {
      var q :| q in s.tasks && s.tasks[q].cpu == Some(e.c) && s.tasks[q].min.active
        && (e.vmin < s.tasks[q].min.value || e.vmax < s.tasks[q].max.value);
      assert q in amin && q in amax;
    }
  }

  lemma DequeueCapped(s: Sys, e: Event)
    requires CapInv(s) && Enabled(s, e) && e.Dequeue? && s.tasks[e.p].min.active
    ensures |Apply(s, e).rqs| == |s.rqs| && CappedAt(Apply(s, e), s.tasks[e.p].cpu.value)
  {
    var s', c, p := Apply(s, e), s.tasks[e.p].cpu.value, e.p;
    assert CappedAt(s, c);
    Counts(s, c);
    ActLeaves(s, s', p, c, Min);
    ActLeaves(s, s', p, c, Max);
    DecCapped(s.rqs[c].min, false, Act(s, c, Min), p);
    DecCapped(s.rqs[c].max, true, Act(s, c, Max), p);
  }

  lemma UpdateMinCapped(rq: Rq, n: nat, amin: map<TaskId, nat>, amax: map<TaskId, nat>, p: TaskId, v: nat)
    requires SizedRq(n, rq) && RqCapped(rq, amin, amax) && Counted(rq.min, amin)
    requires amin.Keys == amax.Keys && p in amin
    ensures RqCapped(DecInc(n, rq, Min, amin[p], v), (amin - {p})[p := v], amax)
  {
    assert rq.idle ==> amin.Keys == {p};
    UpdateCapped(rq.min, false, rq.idle, amin, p, v);
    assert !Dec(rq.min, false, amin[p]).1;
  }

  lemma UpdateMaxCapped(rq: Rq, n: nat, amin: map<TaskId, nat>, amax: map<TaskId, nat>, p: TaskId, v: nat)
    requires SizedRq(n, rq) && RqCapped(rq, amin, amax) && Counted(rq.max, amax) && p in amax
    ensures RqCapped(DecInc(n, rq, Max, amax[p], v), amin, (amax - {p})[p := v])
  {
    assert rq.idle ==> amax.Keys == {p};
    UpdateCapped(rq.max, true, rq.idle, amax, p, v);
    assert ((amax - {p})[p := v]).Keys == amax.Keys;
  }

  lemma UpdateCappedAt(s: Sys, e: Event)
    requires CapInv(s) && Enabled(s, e) && e.Update? && s.tasks[e.p].min.active
    ensures |Apply(s, e).rqs| == |s.rqs| && CappedAt(Apply(s, e), s.tasks[e.p].cpu.value)
  {
    var c, p := s.tasks[e.p].cpu.value, e.p;
    assert CappedAt(s, c);
    Counts(s, c);
    UpdateActs(s, e);
    match e.id
    case Min => UpdateMinCapped(s.rqs[c], s.n, Act(s, c, Min), Act(s, c, Max), p, e.v);
    case Max => UpdateMaxCapped(s.rqs[c], s.n, Act(s, c, Min), Act(s, c, Max), p, e.v);
  }

  lemma CappedElsewhere(s: Sys, e: Event, c: CpuId)
    requires CapInv(s) && Enabled(s, e) && c < |s.rqs| && Site(s, e) != Some(c)
    ensures |Apply(s, e).rqs| == |s.rqs| && CappedAt(Apply(s, e), c)
  {
    var s' := Apply(s, e);
    assert CappedAt(s, c);
    if e.Enable? || (e.Update? && !s.tasks[e.p].min.active) {
      assert Act(s', c, Min) == Act(s, c, Min) && Act(s', c, Max) == Act(s, c, Max);
    } else {
      ActElsewhere(s, s', e.p, c, Min);
      ActElsewhere(s, s', e.p, c, Max);
    }
  }

  // The queue whose clamps an event re-accounts.
  function Site(s: Sys, e: Event): Option<CpuId>
    requires Enabled(s, e)
  {
    match e
    case Enqueue(_, c, enabled, _, _) => if s.used && enabled then Some(c) else None
    case Dequeue(p) => if s.tasks[p].min.active then s.tasks[p].cpu else None
    case Update(p, _, _) => if s.tasks[p].min.active then s.tasks[p].cpu else None
    case _ => None
  }

  lemma StepCappedIff(s: Sys, e: Event)
    requires CapInv(s) && Enabled(s, e)
    ensures CapInv(Apply(s, e)) <==> !Lossy(s, e)
  {
    StepKeepsCount(s, e);
    var s' := Apply(s, e);
    if Site(s, e).Some? {
      match e
      case Enqueue(_, _, _, _, _) => EnqueueCappedIff(s, e);
      case Dequeue(_) => DequeueCapped(s, e);
      case Update(_, _, _) => UpdateCappedAt(s, e);
    }
    forall c | 0 <= c < |s'.rqs| && Site(s, e) != Some(c) ensures CappedAt(s', c) {
      CappedElsewhere(s, e, c);
    }
    assert Lossy(s, e) ==> Site(s, e) == Some(e.c);
  }

  // A lossy enqueue loses the bound at once, on the minimum or the maximum side.
  lemma LossyLosesBound(s: Sys, e: Event) returns (q: TaskId)
    requires CapInv(s) && Enabled(s, e) && Lossy(s, e)
    ensures var s' := Apply(s, e);
      && |s'.rqs| == |s.rqs| && q in Act(s', e.c, Min) && q in Act(s', e.c, Max)
      && (s'.rqs[e.c].min.value < Act(s', e.c, Min)[q] || s'.rqs[e.c].max.value < Act(s', e.c, Max)[q])
  {
    q :| q in s.tasks && s.tasks[q].cpu == Some(e.c) && s.tasks[q].min.active
      && (e.vmin < s.tasks[q].min.value || e.vmax < s.tasks[q].max.value);
    assert q != e.p && s.tasks[q].max.active;
  }

  ghost predicate NeverLossy(s: Sys, es: seq<Event>)
    requires Shape(s) && Possible(s, es)
    decreases |es|
  {
    es == [] || (!Lossy(s, es[0]) && (StepKeepsShape(s, es[0]); NeverLossy(Apply(s, es[0]), es[1..])))
  }

  lemma {:induction false} RunStaysCapped(s: Sys, es: seq<Event>)
    requires CapInv(s) && Possible(s, es) && NeverLossy(s, es)
    ensures CapInv(Final(s, es))
    decreases |es|
  {
    if es != [] {
      StepCappedIff(s, es[0]);
      RunStaysCapped(Apply(s, es[0]), es[1..]);
    }
  }

  lemma BootIsCapped(s: Sys)
    requires Init(s)
    ensures CapInv(s)
  {
    InitHolds(s);
    forall c | 0 <= c < |s.rqs| ensures CappedAt(s, c) {
      assert ValuesAt(s, c) && Act(s, c, Min) == map[] && Act(s, c, Max) == map[];
    }
  }

  // Over every run without a lossy enqueue, updates that leave the flag stale
  // included, both values of a queue bound all of its active clamps.
  lemma BoundHolds(init: Sys, es: seq<Event>, c: CpuId, p: TaskId, id: ClampId)
    requires Init(init) && Shape(init) && Possible(init, es) && NeverLossy(init, es)
    ensures var s := Final(init, es);
      c < |s.rqs| && p in Act(s, c, id) ==> Act(s, c, id)[p] <= Get(s.rqs[c], id).value
  {
    BootIsCapped(init);
    RunStaysCapped(init, es);
    assert c < |Final(init, es).rqs| ==> CappedAt(Final(init, es), c);
  }
}
