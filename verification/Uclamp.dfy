// Utilization clamps of a run queue: bucketed max-aggregation over the active
// tasks (uclamp_rq_inc_id, uclamp_rq_dec_id, uclamp_rq_max_value).
module Uclamp {
  import opened Common

  const SCALE := 1024    // SCHED_CAPACITY_SCALE

  // UCLAMP_BUCKET_DELTA for n = UCLAMP_BUCKETS buckets
  function Delta(n: nat): (d: nat)
    requires 1 <= n <= SCALE
    ensures d >= 1
  {
    (SCALE + n / 2) / n
  }

  // uclamp_bucket_id
  function BucketId(n: nat, value: nat): (b: nat)
    requires 1 <= n <= SCALE
    ensures b < n
  {
    var b := value / Delta(n);
    if b < n - 1 then b else n - 1
  }

  // A bucket is as wide as the closest whole number to an n-th of the scale.
  lemma DeltaIsClosest(n: nat)
    requires 1 <= n <= SCALE
    ensures 2 * SCALE - n <= 2 * (n * Delta(n)) <= 2 * SCALE + n
  {
    var x := SCALE + n / 2;
    assert x == n * (x / n) + x % n;
  }

  // Bucket b holds the values from b widths on, the last one all that are left.
  lemma BucketRange(n: nat, v: nat)
    requires 1 <= n <= SCALE
    ensures var b, d := BucketId(n, v), Delta(n);
      d * b <= v && (b < n - 1 ==> v < d * (b + 1))
  {
    var d := Delta(n);
    assert v == d * (v / d) + v % d;
    if v / d >= n - 1 {
      MulLeft(d, n - 1, v / d);
    } else {
      assert d * (v / d + 1) == d * (v / d) + d;
    }
  }

  lemma MulLeft(d: nat, a: nat, b: nat)
    requires a <= b
    ensures d * a <= d * b
  {
  }

  lemma BucketIdMonotone(n: nat, v: nat, w: nat)
    requires 1 <= n <= SCALE && v <= w
    ensures BucketId(n, v) <= BucketId(n, w)
  {
    DivMonotone(v, w, Delta(n));
  }

  lemma DivMonotone(v: nat, w: nat, d: nat)
    requires d >= 1 && v <= w
    ensures v / d <= w / d
  {
    var gap := v / d - w / d;
    assert d * gap == (v - v % d) - (w - w % d);
    assert gap >= 1 ==> d * gap >= d;
  }

  // struct uclamp_rq: the clamp value and, per bucket, the number of active
  // tasks and the largest clamp seen since it was last empty.
  datatype Side = Side(value: nat, tasks: seq<nat>, top: seq<nat>)

  predicate Sized(s: Side) {
    1 <= |s.tasks| == |s.top| <= SCALE
  }

  // Highest bucket below n with tasks in it.
  function Topmost(tasks: seq<nat>, n: nat): (r: Option<nat>)
    requires n <= |tasks|
    ensures r.None? <==> forall b :: 0 <= b < n ==> tasks[b] == 0
    ensures r.Some? ==> r.value < n && tasks[r.value] > 0 && forall b :: r.value < b < n ==> tasks[b] == 0
  {
    if n == 0 then None else if tasks[n - 1] > 0 then Some(n - 1) else Topmost(tasks, n - 1)
  }

  // uclamp_rq_inc_id for a task whose effective clamp is v
  function Inc(s: Side, idle: bool, v: nat): Side
    requires Sized(s)
  {
    var b := BucketId(|s.tasks|, v);
    var value := if idle then v else s.value;
    Side(if v > value then v else value,
         s.tasks[b := s.tasks[b] + 1],
         if s.tasks[b] == 0 || v > s.top[b] then s.top[b := v] else s.top)
  }

  // uclamp_rq_dec_id for an active task with clamp v; the flag says whether the
  // queue turns idle (only the maximum clamp raises UCLAMP_FLAG_IDLE).
  function Dec(s: Side, isMax: bool, v: nat): (Side, bool)
    requires Sized(s)
  {
    var b := BucketId(|s.tasks|, v);
    var tasks := s.tasks[b := if s.tasks[b] > 0 then s.tasks[b] - 1 else 0];
    if tasks[b] > 0 || s.top[b] < s.value then (s.(tasks := tasks), false)
    else
      match Topmost(tasks, |tasks|)
      case Some(t) => (s.(tasks := tasks, value := s.top[t]), false)
      case None => (s.(tasks := tasks, value := if isMax then v else 0), isMax)
  }

  // The same structure as the code updates it.
  class UclampRq {
    var value: nat
    var tasks: array<nat>
    var top: array<nat>

    ghost predicate Valid()
      reads this
    {
      1 <= tasks.Length == top.Length <= SCALE && tasks != top
    }

    ghost function View(): Side
      reads this, tasks, top
    {
      Side(value, tasks[..], top[..])
    }

    // init_uclamp_rq
    constructor (n: nat, none: nat)
      requires 1 <= n <= SCALE
      ensures Valid() && fresh(tasks) && fresh(top) && View() == Boot(n, none)
    {
      value := none;
      tasks := new nat[n](_ => 0);
      top := new nat[n](_ => 0);
      new;
      assert tasks[..] == seq(n, _ => 0) && top[..] == seq(n, _ => 0);
    }

    method IncId(idle: bool, v: nat)
      requires Valid()
      modifies this`value, tasks, top
      ensures Valid() && View() == Inc(old(View()), idle, v)
    {
      var b := BucketId(tasks.Length, v);
      tasks[b] := tasks[b] + 1;
      if idle { value := v; }                        // uclamp_idle_reset
      if tasks[b] == 1 || v > top[b] { top[b] := v; }
      if v > value { value := v; }
    }

    method DecId(isMax: bool, v: nat) returns (idle: bool)
      requires Valid()
      modifies this`value, tasks
      ensures Valid() && (View(), idle) == Dec(old(View()), isMax, v)
    {
      var b := BucketId(tasks.Length, v);
      idle := false;
      if tasks[b] > 0 { tasks[b] := tasks[b] - 1; }
      assert tasks[..] == old(tasks[..])[b := tasks[b]];
      if tasks[b] > 0 { return; }
      if top[b] >= value {
        value, idle := MaxValue(isMax, v);
      }
    }

    // uclamp_rq_max_value with uclamp_idle_value
    method MaxValue(isMax: bool, v: nat) returns (m: nat, idle: bool)
      requires Valid()
      ensures (m, idle) == match Topmost(tasks[..], tasks.Length)
        case Some(t) => (top[t], false)
        case None => (if isMax then v else 0, isMax)
    {
      var b: nat := tasks.Length;
      while b > 0
        invariant b <= tasks.Length && Topmost(tasks[..], tasks.Length) == Topmost(tasks[..], b)
      {
        b := b - 1;
        if tasks[b] > 0 { return top[b], false; }
      }
      return if isMax then v else 0, isMax;
    }
  }

  function Boot(n: nat, none: nat): Side {
    Side(none, seq(n, _ => 0), seq(n, _ => 0))
  }

  // ---- One side and its active tasks ---------------------------------------

  type TaskId = nat

  function InBucket(n: nat, act: map<TaskId, nat>, b: nat): set<TaskId>
    requires 1 <= n <= SCALE
  {
    set p | p in act && BucketId(n, act[p]) == b
  }

  // Each bucket counts the active tasks that fall into it.
  ghost predicate Counted(s: Side, act: map<TaskId, nat>) {
    Sized(s) && forall b :: 0 <= b < |s.tasks| ==> s.tasks[b] == |InBucket(|s.tasks|, act, b)|
  }

  // A bucket in use holds a value of its own range, at least every clamp in it
  // and at most the queue's value.
  ghost predicate Bounded(s: Side, act: map<TaskId, nat>) {
    && Sized(s)
    && (forall b :: 0 <= b < |s.tasks| && s.tasks[b] > 0 ==>
         BucketId(|s.tasks|, s.top[b]) == b && s.top[b] <= s.value)
    && (forall p :: p in act ==> act[p] <= s.top[BucketId(|s.tasks|, act[p])])
  }

  // The queue's value is that of the topmost bucket in use.
  ghost predicate Exact(s: Side) {
    Sized(s) && s.value == match Topmost(s.tasks, |s.tasks|) case Some(t) => s.top[t] case None => 0
  }

  lemma InBucketAdd(n: nat, act: map<TaskId, nat>, p: TaskId, v: nat, b: nat)
    requires 1 <= n <= SCALE && p !in act
    ensures |InBucket(n, act[p := v], b)| == |InBucket(n, act, b)| + (if BucketId(n, v) == b then 1 else 0)
  {
    assert InBucket(n, act[p := v], b) == InBucket(n, act, b) + (if BucketId(n, v) == b then {p} else {});
  }

  lemma IncCounted(s: Side, idle: bool, act: map<TaskId, nat>, p: TaskId, v: nat)
    requires Counted(s, act) && p !in act
    ensures Counted(Inc(s, idle, v), act[p := v])
  {
    var n := |s.tasks|;
    forall b | 0 <= b < n ensures Inc(s, idle, v).tasks[b] == |InBucket(n, act[p := v], b)| {
      InBucketAdd(n, act, p, v, b);
    }
  }

  lemma DecCounted(s: Side, isMax: bool, act: map<TaskId, nat>, p: TaskId)
    requires Counted(s, act) && p in act
    ensures Counted(Dec(s, isMax, act[p]).0, act - {p})
  {
    var n := |s.tasks|;
    var rest := act - {p};
    assert rest[p := act[p]] == act;
    forall b | 0 <= b < n ensures Dec(s, isMax, act[p]).0.tasks[b] == |InBucket(n, rest, b)| {
      InBucketAdd(n, rest, p, act[p], b);
    }
  }

  lemma IncBounded(s: Side, idle: bool, act: map<TaskId, nat>, p: TaskId, v: nat)
    requires Counted(s, act) && Bounded(s, act) && p !in act && (idle ==> act == map[])
    ensures Bounded(Inc(s, idle, v), act[p := v])
  {
    var n := |s.tasks|;
    var t := Inc(s, idle, v);
    if idle {
      forall b | 0 <= b < n ensures s.tasks[b] == 0 {
        assert InBucket(n, act, b) == {};
      }
    }
    forall q | q in act ensures s.tasks[BucketId(n, act[q])] > 0 {
      assert q in InBucket(n, act, BucketId(n, act[q]));
    }
  }

  // After a removal, an active task's bucket is still in use and the buckets in
  // use are those of before.
  lemma DecInUse(s: Side, isMax: bool, act: map<TaskId, nat>, p: TaskId)
    requires Counted(s, act) && p in act
    ensures var t := Dec(s, isMax, act[p]).0;
      && Sized(t) && |t.tasks| == |s.tasks| && t.top == s.top
      && (forall b :: 0 <= b < |t.tasks| ==> t.tasks[b] <= s.tasks[b])
      && (forall q :: q in act - {p} ==> t.tasks[BucketId(|t.tasks|, act[q])] > 0)
  {
    var n := |s.tasks|;
    DecCounted(s, isMax, act, p);
    var t := Dec(s, isMax, act[p]).0;
    forall q | q in act - {p} ensures t.tasks[BucketId(n, act[q])] > 0 {
      assert q in InBucket(n, act - {p}, BucketId(n, act[q]));
    }
    assert p in InBucket(n, act, BucketId(n, act[p]));
  }

  // The value of the topmost bucket in use bounds those of the others.
  lemma TopmostBounds(n: nat, tasks: seq<nat>, top: seq<nat>, b: nat)
    requires 1 <= n == |tasks| == |top| <= SCALE && b < n && tasks[b] > 0 && Topmost(tasks, n).Some?
    requires forall a :: 0 <= a < n && tasks[a] > 0 ==> BucketId(n, top[a]) == a
    ensures top[b] <= top[Topmost(tasks, n).value]
  {
    var m := Topmost(tasks, n).value;
    if b < m {
      TopsOrdered(n, top[b], top[m]);
    }
  }

  lemma DecBounded(s: Side, isMax: bool, act: map<TaskId, nat>, p: TaskId)
    requires Counted(s, act) && Bounded(s, act) && p in act
    ensures Bounded(Dec(s, isMax, act[p]).0, act - {p})
    ensures Dec(s, isMax, act[p]).1 ==> act - {p} == map[]
  {
    DecInUse(s, isMax, act, p);
    var (t, idle) := Dec(s, isMax, act[p]);
    var n := |t.tasks|;
    forall b | 0 <= b < n && t.tasks[b] > 0 ensures BucketId(n, t.top[b]) == b && t.top[b] <= t.value {
      assert s.tasks[b] > 0;
      if t.value != s.value {
        TopmostBounds(n, t.tasks, t.top, b);
      }
    }
    assert idle ==> forall b :: 0 <= b < n ==> t.tasks[b] == 0;
    assert idle ==> (act - {p}).Keys == {};
  }

  // When the last task leaves and its clamp was the queue's value, the maximum
  // stays at that clamp and the queue is flagged idle; the minimum falls to 0.
  lemma LastLeaves(s: Side, isMax: bool, v: nat)
    requires Sized(s) && s.value <= s.top[BucketId(|s.tasks|, v)]
    requires forall b :: 0 <= b < |s.tasks| ==> s.tasks[b] == if b == BucketId(|s.tasks|, v) then 1 else 0
    ensures var (t, idle) := Dec(s, isMax, v);
      idle == isMax && t.value == (if isMax then v else 0) && Topmost(t.tasks, |t.tasks|).None?
  {
  }

  // The next task then sets either value to its own clamp.
  lemma FirstSetsValue(s: Side, v: nat)
    requires Sized(s)
    ensures Inc(s, true, v).value == v
  {
  }

  lemma TopsOrdered(n: nat, v: nat, w: nat)
    requires 1 <= n <= SCALE && BucketId(n, v) < BucketId(n, w)
    ensures v < w
  {
    if w <= v {
      BucketIdMonotone(n, w, v);
    }
  }

  lemma TopmostIs(tasks: seq<nat>, n: nat, t: nat)
    requires t < n <= |tasks| && tasks[t] > 0 && forall b :: t < b < n ==> tasks[b] == 0
    ensures Topmost(tasks, n) == Some(t)
  {
  }

  lemma IncExact(s: Side, idle: bool, act: map<TaskId, nat>, v: nat)
    requires Bounded(s, act) && Exact(s) && (idle ==> Topmost(s.tasks, |s.tasks|).None?)
    ensures Exact(Inc(s, idle, v))
  {
    var n, b := |s.tasks|, BucketId(|s.tasks|, v);
    var t := Inc(s, idle, v);
    match Topmost(s.tasks, n)
    case None =>
      TopmostIs(t.tasks, n, b);
    case Some(m) =>
      TopmostIs(t.tasks, n, if b > m then b else m);
      if b > m {
        TopsOrdered(n, s.top[m], v);
      } else if b < m {
        TopsOrdered(n, v, s.top[m]);
      }
  }

  lemma DecExact(s: Side, act: map<TaskId, nat>, p: TaskId)
    requires Counted(s, act) && Bounded(s, act) && Exact(s) && p in act
    ensures Exact(Dec(s, false, act[p]).0)
  {
    var n, b := |s.tasks|, BucketId(|s.tasks|, act[p]);
    var t := Dec(s, false, act[p]).0;
    assert p in InBucket(n, act, b);
    var m := Topmost(s.tasks, n).value;
    if t.tasks[b] > 0 || s.top[b] < s.value {
      if b < m {
        TopmostIs(t.tasks, n, m);
      } else {
        TopmostIs(t.tasks, n, b);
      }
    }
  }

  // What the three conditions give: the value bounds every active clamp, and an
  // exact one lies in the bucket of the largest, being 0 when there is none.
  lemma ValueBounds(s: Side, act: map<TaskId, nat>, p: TaskId)
    requires Counted(s, act) && Bounded(s, act) && p in act
    ensures act[p] <= s.value
    ensures Exact(s) && (forall q :: q in act ==> act[q] <= act[p]) ==>
      BucketId(|s.tasks|, s.value) == BucketId(|s.tasks|, act[p])
  {
    var n, b := |s.tasks|, BucketId(|s.tasks|, act[p]);
    assert p in InBucket(n, act, b);
    assert s.tasks[b] > 0;
    if Exact(s) && forall q :: q in act ==> act[q] <= act[p] {
      var m := Topmost(s.tasks, n).value;
      assert |InBucket(n, act, m)| > 0;
      assert InBucket(n, act, m) != {};
      var q :| q in InBucket(n, act, m);
      BucketIdMonotone(n, act[q], act[p]);
    }
  }

  // ---- All run queues and tasks ---------------------------------------------

  type CpuId = nat

  datatype ClampId = Min | Max

  datatype Clamp = Clamp(value: nat, active: bool)       // p->uclamp[clamp_id]

  datatype Task = Task(cpu: Option<CpuId>, enabled: bool, min: Clamp, max: Clamp)

  datatype Rq = Rq(min: Side, max: Side, idle: bool)     // idle: UCLAMP_FLAG_IDLE

  datatype Sys = Sys(n: nat, used: bool, rqs: seq<Rq>, tasks: map<TaskId, Task>)

  // The clamps in Enqueue and Update are those uclamp_eff_get yields at the time.
  datatype Event =
    | Enable                                             // static key sched_uclamp_used
    | Fork(p: TaskId, parent: TaskId)
    | Enqueue(p: TaskId, c: CpuId, enabled: bool, vmin: nat, vmax: nat)
    | Dequeue(p: TaskId)
    | Update(p: TaskId, id: ClampId, v: nat)             // uclamp_update_active

  function Get(rq: Rq, id: ClampId): Side { if id.Min? then rq.min else rq.max }

  function ClampOf(t: Task, id: ClampId): Clamp { if id.Min? then t.min else t.max }

  predicate Enabled(s: Sys, e: Event) {
    match e
    case Enable => true
    case Fork(p, parent) => p !in s.tasks && parent in s.tasks
    case Enqueue(p, c, _, _, _) => p in s.tasks && s.tasks[p].cpu.None? && c < |s.rqs|
    case Dequeue(p) => p in s.tasks && s.tasks[p].cpu.Some? && s.tasks[p].cpu.value < |s.rqs|
    case Update(p, _, _) => p in s.tasks && s.tasks[p].cpu.Some? && s.tasks[p].cpu.value < |s.rqs|
  }

  predicate SizedRq(n: nat, rq: Rq) {
    1 <= n <= SCALE && Sized(rq.min) && Sized(rq.max) && |rq.min.tasks| == |rq.max.tasks| == n
  }

  // uclamp_rq_inc once clamps are in use
  function RqInc(n: nat, rq: Rq, vmin: nat, vmax: nat): Rq
    requires SizedRq(n, rq)
  {
    Rq(Inc(rq.min, rq.idle, vmin), Inc(rq.max, rq.idle, vmax), false)
  }

  // uclamp_rq_dec for an active task
  function RqDec(n: nat, rq: Rq, vmin: nat, vmax: nat): Rq
    requires SizedRq(n, rq)
  {
    Rq(Dec(rq.min, false, vmin).0, Dec(rq.max, true, vmax).0, rq.idle || Dec(rq.max, true, vmax).1)
  }

  function DecInc(n: nat, rq: Rq, id: ClampId, was: nat, v: nat): Rq
    requires SizedRq(n, rq)
  {
    if id.Min? then rq.(min := Inc(Dec(rq.min, false, was).0, rq.idle, v))
    else
      var (side, idle) := Dec(rq.max, true, was);
      rq.(max := Inc(side, rq.idle || idle, v), idle := rq.idle || idle)
  }

  ghost predicate Shape(s: Sys) {
    && (forall c :: 0 <= c < |s.rqs| ==> SizedRq(s.n, s.rqs[c]))
    && (forall p :: p in s.tasks ==>
          && s.tasks[p].min.active == s.tasks[p].max.active
          && (s.tasks[p].min.active ==> s.used && s.tasks[p].enabled && s.tasks[p].cpu.Some?))
  }

  ghost function Apply(s: Sys, e: Event): Sys
    requires Shape(s) && Enabled(s, e)
  {
    match e
    case Enable => s.(used := true)
    case Fork(p, parent) =>
      var t := s.tasks[parent];
      s.(tasks := s.tasks[p := Task(None, t.enabled, t.min.(active := false), t.max.(active := false))])
    case Enqueue(p, c, enabled, vmin, vmax) =>
      if s.used && enabled
      then s.(rqs := s.rqs[c := RqInc(s.n, s.rqs[c], vmin, vmax)],
              tasks := s.tasks[p := Task(Some(c), enabled, Clamp(vmin, true), Clamp(vmax, true))])
      else s.(tasks := s.tasks[p := s.tasks[p].(cpu := Some(c), enabled := enabled)])
    case Dequeue(p) =>
      var t := s.tasks[p];
      var c := t.cpu.value;
      // each uclamp_rq_dec_id returns at once for a clamp that is not active
      if s.used && t.enabled && t.min.active
      then s.(rqs := s.rqs[c := RqDec(s.n, s.rqs[c], t.min.value, t.max.value)],
              tasks := s.tasks[p := t.(cpu := None, min := t.min.(active := false), max := t.max.(active := false))])
      else s.(tasks := s.tasks[p := t.(cpu := None)])
    case Update(p, id, v) =>
      var t := s.tasks[p];
      var c := t.cpu.value;
      if !t.min.active then s
      else s.(rqs := s.rqs[c := DecInc(s.n, s.rqs[c], id, ClampOf(t, id).value, v)],
              tasks := s.tasks[p := if id.Min? then t.(min := Clamp(v, true)) else t.(max := Clamp(v, true))])
  }

  // A task is active from an enqueue with clamps in use, in a class that supports
  // them, to the next dequeue; a child starts inactive.
  lemma ActiveSince(s: Sys, e: Event, p: TaskId)
    requires Shape(s) && Enabled(s, e) && p in Apply(s, e).tasks
    ensures Apply(s, e).tasks[p].max.active <==>
      match e
      case Enqueue(q, _, enabled, _, _) => s.tasks[p].max.active || (q == p && s.used && enabled)
      case Dequeue(q) => q != p && s.tasks[p].max.active
      case Fork(q, _) => q != p && s.tasks[p].max.active
      case _ => s.tasks[p].max.active
    ensures e.Enable? ==> Apply(s, e).used
  {
  }

  // The clamps of the active tasks of a run queue.
  ghost function Act(s: Sys, c: CpuId, id: ClampId): map<TaskId, nat> {
    map p | p in s.tasks && s.tasks[p].cpu == Some(c)
      && ClampOf(s.tasks[p], id).active :: ClampOf(s.tasks[p], id).value
  }

  ghost predicate CountInv(s: Sys) {
    Shape(s) && forall c, id :: 0 <= c < |s.rqs| ==> Counted(Get(s.rqs[c], id), Act(s, c, id))
  }

  lemma ActUnchanged(s: Sys, s': Sys, p: TaskId, c: CpuId, id: ClampId)
    requires p in s'.tasks && s'.tasks == s.tasks[p := s'.tasks[p]]
    requires p in s.tasks ==> s.tasks[p].cpu != Some(c) || !ClampOf(s.tasks[p], id).active
    requires s'.tasks[p].cpu != Some(c) || !ClampOf(s'.tasks[p], id).active
    ensures Act(s', c, id) == Act(s, c, id)
  {
  }

  lemma ActJoins(s: Sys, s': Sys, p: TaskId, c: CpuId, id: ClampId)
    requires p in s'.tasks && s'.tasks == s.tasks[p := s'.tasks[p]]
    requires p in s.tasks ==> s.tasks[p].cpu != Some(c) || !ClampOf(s.tasks[p], id).active
    requires s'.tasks[p].cpu == Some(c) && ClampOf(s'.tasks[p], id).active
    ensures p !in Act(s, c, id) && Act(s', c, id) == Act(s, c, id)[p := ClampOf(s'.tasks[p], id).value]
  {
  }

  // Writing task p leaves the active clamps of every run queue it is not active on.
  lemma ActElsewhere(s: Sys, s': Sys, p: TaskId, c: CpuId, id: ClampId)
    requires p in s'.tasks && s'.tasks == s.tasks[p := s'.tasks[p]]
    requires p in s.tasks ==> s.tasks[p].cpu != Some(c) || !ClampOf(s.tasks[p], id).active
    ensures s'.tasks[p].cpu != Some(c) || !ClampOf(s'.tasks[p], id).active ==> Act(s', c, id) == Act(s, c, id)
    ensures s'.tasks[p].cpu == Some(c) && ClampOf(s'.tasks[p], id).active ==>
      p !in Act(s, c, id) && Act(s', c, id) == Act(s, c, id)[p := ClampOf(s'.tasks[p], id).value]
  {
    if s'.tasks[p].cpu == Some(c) && ClampOf(s'.tasks[p], id).active {
      ActJoins(s, s', p, c, id);
    } else {
      ActUnchanged(s, s', p, c, id);
    }
  }

  lemma ActLeaves(s: Sys, s': Sys, p: TaskId, c: CpuId, id: ClampId)
    requires p in s.tasks && s.tasks[p].cpu == Some(c) && ClampOf(s.tasks[p], id).active
    requires p in s'.tasks && s'.tasks == s.tasks[p := s'.tasks[p]]
    ensures p in Act(s, c, id) && Act(s, c, id)[p] == ClampOf(s.tasks[p], id).value
    ensures s'.tasks[p].cpu != Some(c) || !ClampOf(s'.tasks[p], id).active ==> Act(s', c, id) == Act(s, c, id) - {p}
    ensures s'.tasks[p].cpu == Some(c) && ClampOf(s'.tasks[p], id).active ==>
      Act(s', c, id) == (Act(s, c, id) - {p})[p := ClampOf(s'.tasks[p], id).value]
  {
  }

  lemma StepCounts(s: Sys, e: Event, c: CpuId, id: ClampId)
    requires CountInv(s) && Enabled(s, e) && c < |s.rqs|
    ensures |Apply(s, e).rqs| == |s.rqs| && Counted(Get(Apply(s, e).rqs[c], id), Act(Apply(s, e), c, id))
  {
    var s' := Apply(s, e);
    assert Counted(Get(s.rqs[c], id), Act(s, c, id));
    match e
    case Enable => assert Act(s', c, id) == Act(s, c, id);
    case Fork(p, parent) => ActElsewhere(s, s', p, c, id);
    case Enqueue(p, d, enabled, vmin, vmax) =>
      ActElsewhere(s, s', p, c, id);
      if s.used && enabled && c == d {
        IncCounted(Get(s.rqs[c], id), s.rqs[c].idle, Act(s, c, id), p, if id.Min? then vmin else vmax);
      }
    case Dequeue(p) =>
      if s.tasks[p].min.active && s.tasks[p].cpu == Some(c) {
        ActLeaves(s, s', p, c, id);
        DecCounted(Get(s.rqs[c], id), id.Max?, Act(s, c, id), p);
      } else {
        ActElsewhere(s, s', p, c, id);
      }
    case Update(p, i, v) =>
      if s.tasks[p].min.active {
        if s.tasks[p].cpu == Some(c) {
          ActLeaves(s, s', p, c, id);
          var act, side := Act(s, c, id), Get(s.rqs[c], id);
          if i == id {
            DecCounted(side, id.Max?, act, p);
            IncCounted(Dec(side, id.Max?, act[p]).0, s.rqs[c].idle || (id.Max? && Dec(side, true, act[p]).1),
              act - {p}, p, v);
          } else {
            assert (act - {p})[p := act[p]] == act;
          }
        } else {
          ActElsewhere(s, s', p, c, id);
        }
      }
  }

  lemma RqStepsSized(n: nat, rq: Rq, id: ClampId, v: nat, w: nat)
    requires SizedRq(n, rq)
    ensures SizedRq(n, RqInc(n, rq, v, w)) && SizedRq(n, RqDec(n, rq, v, w)) && SizedRq(n, DecInc(n, rq, id, v, w))
  {
  }

  lemma StepKeepsShape(s: Sys, e: Event)
    requires Shape(s) && Enabled(s, e)
    ensures Shape(Apply(s, e))
  {
    match e
    case Enqueue(p, c, _, vmin, vmax) => RqStepsSized(s.n, s.rqs[c], Min, vmin, vmax);
    case Dequeue(p) =>
      RqStepsSized(s.n, s.rqs[s.tasks[p].cpu.value], Min, s.tasks[p].min.value, s.tasks[p].max.value);
    case Update(p, id, v) => RqStepsSized(s.n, s.rqs[s.tasks[p].cpu.value], id, ClampOf(s.tasks[p], id).value, v);
    case _ =>
  }

  lemma StepKeepsCount(s: Sys, e: Event)
    requires CountInv(s) && Enabled(s, e)
    ensures CountInv(Apply(s, e))
  {
    StepKeepsShape(s, e);
    forall c, id | 0 <= c < |Apply(s, e).rqs| ensures Counted(Get(Apply(s, e).rqs[c], id), Act(Apply(s, e), c, id)) {
      StepCounts(s, e, c, id);
    }
  }

  // ---- Values over enqueue and dequeue --------------------------------------

  ghost predicate Values(rq: Rq, amin: map<TaskId, nat>, amax: map<TaskId, nat>) {
    && (rq.idle ==> amax == map[])
    && Bounded(rq.min, amin) && Bounded(rq.max, amax) && Exact(rq.min)
  }

  ghost predicate ValuesAt(s: Sys, c: CpuId)
    requires c < |s.rqs|
  {
    Values(s.rqs[c], Act(s, c, Min), Act(s, c, Max))
  }

  ghost predicate ValueInv(s: Sys) {
    CountInv(s) && forall c :: 0 <= c < |s.rqs| ==> ValuesAt(s, c)
  }

  lemma SameKeys(s: Sys, c: CpuId)
    requires Shape(s)
    ensures Act(s, c, Min).Keys == Act(s, c, Max).Keys
  {
  }

  lemma NoneInUse(s: Side)
    requires Counted(s, map[])
    ensures Topmost(s.tasks, |s.tasks|).None?
  {
  }

  lemma EnqueueValues(s: Sys, e: Event)
    requires ValueInv(s) && Enabled(s, e) && e.Enqueue? && s.used && e.enabled
    ensures |Apply(s, e).rqs| == |s.rqs| && ValuesAt(Apply(s, e), e.c)
  {
    var s', c, p := Apply(s, e), e.c, e.p;
    var rq := s.rqs[c];
    assert ValuesAt(s, c);
    assert Counted(Get(rq, Min), Act(s, c, Min)) && Counted(Get(rq, Max), Act(s, c, Max));
    SameKeys(s, c);
    if rq.idle {
      assert Act(s, c, Min) == map[];
      NoneInUse(rq.min);
    }
    ActElsewhere(s, s', p, c, Min);
    ActElsewhere(s, s', p, c, Max);
    IncBounded(rq.min, rq.idle, Act(s, c, Min), p, e.vmin);
    IncBounded(rq.max, rq.idle, Act(s, c, Max), p, e.vmax);
    IncExact(rq.min, rq.idle, Act(s, c, Min), e.vmin);
  }

  lemma DequeueValues(s: Sys, e: Event)
    requires ValueInv(s) && Enabled(s, e) && e.Dequeue? && s.tasks[e.p].min.active
    ensures |Apply(s, e).rqs| == |s.rqs| && ValuesAt(Apply(s, e), s.tasks[e.p].cpu.value)
  {
    var s', c, p := Apply(s, e), s.tasks[e.p].cpu.value, e.p;
    var rq := s.rqs[c];
    assert ValuesAt(s, c);
    assert Counted(Get(rq, Min), Act(s, c, Min)) && Counted(Get(rq, Max), Act(s, c, Max));
    ActLeaves(s, s', p, c, Min);
    ActLeaves(s, s', p, c, Max);
    DecBounded(rq.min, false, Act(s, c, Min), p);
    DecBounded(rq.max, true, Act(s, c, Max), p);
    DecExact(rq.min, Act(s, c, Min), p);
  }

  // Run queues other than the one an event works on.
  lemma ValuesElsewhere(s: Sys, e: Event, c: CpuId)
    requires ValueInv(s) && Enabled(s, e) && c < |s.rqs|
    requires match e
      case Enqueue(p, d, enabled, _, _) => !(s.used && enabled && d == c)
      case Dequeue(p) => !(s.tasks[p].min.active && s.tasks[p].cpu == Some(c))
      case Update(p, _, _) => !(s.tasks[p].min.active && s.tasks[p].cpu == Some(c))
      case _ => true
    ensures |Apply(s, e).rqs| == |s.rqs| && ValuesAt(Apply(s, e), c)
  {
    var s' := Apply(s, e);
    assert ValuesAt(s, c);
    if e.Enable? || (e.Update? && !s.tasks[e.p].min.active) {
      assert Act(s', c, Min) == Act(s, c, Min) && Act(s', c, Max) == Act(s, c, Max);
    } else {
      ActElsewhere(s, s', e.p, c, Min);
      ActElsewhere(s, s', e.p, c, Max);
    }
  }

  lemma StepKeepsValues(s: Sys, e: Event)
    requires ValueInv(s) && Enabled(s, e) && !e.Update?
    ensures ValueInv(Apply(s, e))
  {
    StepKeepsCount(s, e);
    var s' := Apply(s, e);
    forall c | 0 <= c < |s'.rqs| ensures ValuesAt(s', c) {
      if e.Enqueue? && s.used && e.enabled && e.c == c {
        EnqueueValues(s, e);
      } else if e.Dequeue? && s.tasks[e.p].min.active && s.tasks[e.p].cpu == Some(c) {
        DequeueValues(s, e);
      } else {
        ValuesElsewhere(s, e, c);
      }
    }
  }

  // ---- uclamp_update_active ---------------------------------------------------

  // The task with maximum clamp v is the only active one, and no larger clamp
  // lingers in the queue's value.
  predicate Alone(n: nat, rq: Rq, id: ClampId, v: nat)
    requires SizedRq(n, rq)
  {
    var own := BucketId(n, v);
    && id.Max? && rq.max.value <= rq.max.top[own]
    && forall b :: 0 <= b < n ==> rq.max.tasks[b] == if b == own then 1 else 0
  }

  // Between its two halves the update then finds the queue empty and flags it idle.
  lemma AloneTurnsIdle(n: nat, rq: Rq, v: nat)
    requires SizedRq(n, rq) && rq.max.tasks[BucketId(n, v)] > 0
    ensures Dec(rq.max, true, v).1 <==> Alone(n, rq, Max, v)
  {
    var own := BucketId(n, v);
    var tasks := rq.max.tasks[own := rq.max.tasks[own] - 1];
    if Dec(rq.max, true, v).1 {
      forall b | 0 <= b < n ensures rq.max.tasks[b] == if b == own then 1 else 0 {
        assert tasks[b] == 0;
      }
    }
  }

  lemma UpdateSide(rq: Rq, id: ClampId, act: map<TaskId, nat>, p: TaskId, v: nat)
    requires p in act && Counted(Get(rq, id), act) && Bounded(Get(rq, id), act) && !rq.idle
      && (id.Min? ==> Exact(rq.min))
    ensures var (side, idle) := Dec(Get(rq, id), id.Max?, act[p]);
      Bounded(Inc(side, idle, v), (act - {p})[p := v]) && (id.Min? ==> !idle && Exact(Inc(side, idle, v)))
  {
    var side := Get(rq, id);
    DecCounted(side, id.Max?, act, p);
    DecBounded(side, id.Max?, act, p);
    var (side', idle) := Dec(side, id.Max?, act[p]);
    IncBounded(side', idle, act - {p}, p, v);
    if id.Min? {
      DecExact(side, act, p);
      IncExact(side', false, act - {p}, v);
    }
  }

  // Given sound sides, the values are right unless the flag marks a queue with
  // an active task as idle.
  lemma FlagDecides(rq: Rq, amin: map<TaskId, nat>, amax: map<TaskId, nat>, p: TaskId)
    requires Bounded(rq.min, amin) && Exact(rq.min) && Bounded(rq.max, amax) && p in amax
    ensures Values(rq, amin, amax) <==> !rq.idle
  {
  }

  lemma UpdateMinRq(n: nat, rq: Rq, amin: map<TaskId, nat>, amax: map<TaskId, nat>, p: TaskId, v: nat)
    requires SizedRq(n, rq) && Values(rq, amin, amax) && Counted(rq.min, amin) && p in amin && p in amax
    ensures Values(DecInc(n, rq, Min, amin[p], v), (amin - {p})[p := v], amax)
  {
    assert !rq.idle;
    UpdateSide(rq, Min, amin, p, v);
    FlagDecides(DecInc(n, rq, Min, amin[p], v), (amin - {p})[p := v], amax, p);
  }

  lemma UpdateMaxRq(n: nat, rq: Rq, amin: map<TaskId, nat>, amax: map<TaskId, nat>, p: TaskId, v: nat)
    requires SizedRq(n, rq) && Values(rq, amin, amax) && Counted(rq.max, amax) && p in amax
    ensures Values(DecInc(n, rq, Max, amax[p], v), amin, (amax - {p})[p := v]) <==> !Alone(n, rq, Max, amax[p])
  {
    assert !rq.idle;
    assert p in InBucket(n, amax, BucketId(n, amax[p]));
    AloneTurnsIdle(n, rq, amax[p]);
    UpdateSide(rq, Max, amax, p, v);
    FlagDecides(DecInc(n, rq, Max, amax[p], v), amin, (amax - {p})[p := v], p);
  }

  // What an update does to the active clamps of its run queue.
  lemma UpdateActs(s: Sys, e: Event)
    requires Shape(s) && Enabled(s, e) && e.Update? && s.tasks[e.p].min.active
    ensures var s', c, p := Apply(s, e), s.tasks[e.p].cpu.value, e.p;
      var amin, amax := Act(s, c, Min), Act(s, c, Max);
      && |s'.rqs| == |s.rqs| && s'.rqs[c] == DecInc(s.n, s.rqs[c], e.id, ClampOf(s.tasks[p], e.id).value, e.v)
      && p in amin && p in amax && amin[p] == s.tasks[p].min.value && amax[p] == s.tasks[p].max.value
      && Act(s', c, Min) == (if e.id.Min? then (amin - {p})[p := e.v] else amin)
      && Act(s', c, Max) == (if e.id.Max? then (amax - {p})[p := e.v] else amax)
  {
    var s', c, p := Apply(s, e), s.tasks[e.p].cpu.value, e.p;
    var amin, amax := Act(s, c, Min), Act(s, c, Max);
    assert s.tasks[p].max.active;
    ActLeaves(s, s', p, c, Min);
    ActLeaves(s, s', p, c, Max);
    assert (amin - {p})[p := amin[p]] == amin;
    assert (amax - {p})[p := amax[p]] == amax;
  }

  lemma UpdateValuesAt(s: Sys, e: Event)
    requires ValueInv(s) && Enabled(s, e) && e.Update? && s.tasks[e.p].min.active
    ensures var c := s.tasks[e.p].cpu.value;
      && |Apply(s, e).rqs| == |s.rqs|
      && (ValuesAt(Apply(s, e), c) <==> !Alone(s.n, s.rqs[c], e.id, s.tasks[e.p].max.value))
  {
    UpdateActs(s, e);
    var s', c, p := Apply(s, e), s.tasks[e.p].cpu.value, e.p;
    var rq, amin, amax := s.rqs[c], Act(s, c, Min), Act(s, c, Max);
    assert ValuesAt(s, c);
    if e.id.Min? {
      assert Counted(Get(rq, Min), amin);
      UpdateMinRq(s.n, rq, amin, amax, p, e.v);
    } else {
      assert Counted(Get(rq, Max), amax);
      UpdateMaxRq(s.n, rq, amin, amax, p, e.v);
    }
  }

  // Re-accounting an active task keeps the values right exactly when it does not
  // pass through an empty queue: otherwise UCLAMP_FLAG_IDLE stays set although
  // the task is active.
  lemma UpdateKeepsValuesIff(s: Sys, e: Event)
    requires ValueInv(s) && Enabled(s, e) && e.Update? && s.tasks[e.p].min.active
    ensures ValueInv(Apply(s, e)) <==>
      !Alone(s.n, s.rqs[s.tasks[e.p].cpu.value], e.id, s.tasks[e.p].max.value)
  {
    var s', c := Apply(s, e), s.tasks[e.p].cpu.value;
    StepKeepsCount(s, e);
    UpdateValuesAt(s, e);
    forall d | 0 <= d < |s'.rqs| && d != c ensures ValuesAt(s', d) {
      ValuesElsewhere(s, e, d);
    }
    assert ValueInv(s') <==> ValuesAt(s', c);
  }

  // The stale flag then lets the next enqueue lower the value below the clamp of
  // a task that is still active.
  lemma StaleFlagLosesBound(s: Sys, e: Event, q: TaskId, vmin: nat, w: nat)
    requires ValueInv(s) && Enabled(s, e) && e.Update? && e.id.Max? && s.tasks[e.p].min.active
    requires Alone(s.n, s.rqs[s.tasks[e.p].cpu.value], Max, s.tasks[e.p].max.value)
    requires q in s.tasks && q != e.p && s.tasks[q].cpu.None? && w < e.v
    ensures var c := s.tasks[e.p].cpu.value;
      var s1 := Apply(s, e);
      Shape(s1) && Enabled(s1, Enqueue(q, c, true, vmin, w)) &&
      var s2 := Apply(s1, Enqueue(q, c, true, vmin, w));
      && |s2.rqs| == |s.rqs| && s2.rqs[c].max.value == w
      && e.p in s2.tasks && s2.tasks[e.p].cpu == Some(c) && s2.tasks[e.p].max == Clamp(e.v, true)
  {
  }

  // An event after which the values are still right.
  ghost predicate Harmless(s: Sys, e: Event)
    requires Shape(s) && Enabled(s, e)
  {
    e.Update? && s.tasks[e.p].min.active ==> !Alone(s.n, s.rqs[s.tasks[e.p].cpu.value], e.id, s.tasks[e.p].max.value)
  }

  lemma HarmlessKeepsValues(s: Sys, e: Event)
    requires ValueInv(s) && Enabled(s, e)
    ensures ValueInv(Apply(s, e)) <==> Harmless(s, e)
  {
    if !e.Update? {
      StepKeepsValues(s, e);
    } else if s.tasks[e.p].min.active {
      UpdateKeepsValuesIff(s, e);
    }
  }

  // ---- Runs -------------------------------------------------------------------

  ghost predicate Init(s: Sys) {
    && 1 <= s.n <= SCALE && !s.used
    && (forall c :: 0 <= c < |s.rqs| ==> s.rqs[c] == Rq(Boot(s.n, 0), Boot(s.n, SCALE), false))
    && (forall p :: p in s.tasks ==> s.tasks[p].cpu.None? && !s.tasks[p].min.active && !s.tasks[p].max.active)
  }

  lemma InitHolds(s: Sys)
    requires Init(s)
    ensures ValueInv(s)
  {
  }

  ghost predicate Possible(s: Sys, es: seq<Event>)
    requires Shape(s)
    decreases |es|
  {
    es == [] || (Enabled(s, es[0]) && (StepKeepsShape(s, es[0]); Possible(Apply(s, es[0]), es[1..])))
  }

  ghost function Final(s: Sys, es: seq<Event>): Sys
    requires Shape(s) && Possible(s, es)
    decreases |es|
  {
    if es == [] then s else StepKeepsShape(s, es[0]); Final(Apply(s, es[0]), es[1..])
  }

  // In every run, clamp updates and late enabling included, each bucket counts
  // exactly the active tasks of its range.
  lemma {:induction false} BucketsCount(s: Sys, es: seq<Event>)
    requires CountInv(s) && Possible(s, es)
    ensures CountInv(Final(s, es))
    decreases |es|
  {
    if es != [] {
      StepKeepsCount(s, es[0]);
      BucketsCount(Apply(s, es[0]), es[1..]);
    }
  }

  ghost predicate AllHarmless(s: Sys, es: seq<Event>)
    requires Shape(s) && Possible(s, es)
    decreases |es|
  {
    es == [] || (Harmless(s, es[0]) && (StepKeepsShape(s, es[0]); AllHarmless(Apply(s, es[0]), es[1..])))
  }

  lemma {:induction false} RunKeepsValues(s: Sys, es: seq<Event>)
    requires ValueInv(s) && Possible(s, es) && AllHarmless(s, es)
    ensures ValueInv(Final(s, es))
    decreases |es|
  {
    if es != [] {
      HarmlessKeepsValues(s, es[0]);
      RunKeepsValues(Apply(s, es[0]), es[1..]);
    }
  }

  // Over every run of enqueues, dequeues, forks and harmless updates the queue's
  // value is at least every active clamp; for the minimum clamp it is the value of the topmost bucket in
  // use, in the bucket of the largest active clamp, and 0 when none is active.
  lemma ClampAggregation(init: Sys, es: seq<Event>, c: CpuId, p: TaskId, id: ClampId)
    requires Init(init) && Shape(init) && Possible(init, es) && AllHarmless(init, es)
    requires c < |Final(init, es).rqs|
    ensures var s := Final(init, es);
      var act, side := Act(s, c, id), Get(s.rqs[c], id);
      && (p in act ==> act[p] <= side.value)
      && (id.Min? ==> Exact(side))
      && (id.Min? && act == map[] ==> side.value == 0)
      && (id.Min? && p in act && (forall q :: q in act ==> act[q] <= act[p]) ==>
            BucketId(|side.tasks|, side.value) == BucketId(|side.tasks|, act[p]))
  {
    InitHolds(init);
    RunKeepsValues(init, es);
    var s := Final(init, es);
    assert ValuesAt(s, c) && Counted(Get(s.rqs[c], id), Act(s, c, id));
    if p in Act(s, c, id) {
      ValueBounds(Get(s.rqs[c], id), Act(s, c, id), p);
    }
    if id.Min? && Act(s, c, id) == map[] {
      NoneInUse(s.rqs[c].min);
    }
  }

  // Runs without updates are harmless.
  lemma {:induction false} NoUpdatesHarmless(s: Sys, es: seq<Event>)
    requires Shape(s) && Possible(s, es) && forall i :: 0 <= i < |es| ==> !es[i].Update?
    ensures AllHarmless(s, es)
    decreases |es|
  {
    if es != [] {
      StepKeepsShape(s, es[0]);
      NoUpdatesHarmless(Apply(s, es[0]), es[1..]);
    }
  }

  // From boot, the first task with the full maximum clamp is alone on its queue.
  lemma FirstIsAlone(init: Sys, c: CpuId, p: TaskId)
    requires Init(init) && Shape(init) && c < |init.rqs| && p in init.tasks
    ensures var s1 := Apply(init, Enable);
      Shape(s1) && ValueInv(s1) && Enabled(s1, Enqueue(p, c, true, 0, SCALE)) &&
      var s2 := Apply(s1, Enqueue(p, c, true, 0, SCALE));
      && ValueInv(s2) && |s2.rqs| == |init.rqs|
      && s2.tasks == init.tasks[p := Task(Some(c), true, Clamp(0, true), Clamp(SCALE, true))]
      && Alone(s2.n, s2.rqs[c], Max, SCALE)
  {
    InitHolds(init);
    StepKeepsValues(init, Enable);
    StepKeepsValues(Apply(init, Enable), Enqueue(p, c, true, 0, SCALE));
  }

  // So every system of two tasks can reach, by four steps from boot, a queue
  // value below the clamp of an active task.
  lemma BoundCanBeLost(init: Sys, c: CpuId, p: TaskId, q: TaskId, v: nat, w: nat)
    requires Init(init) && Shape(init) && c < |init.rqs| && p in init.tasks && q in init.tasks && p != q && w < v
    ensures var es := [Enable, Enqueue(p, c, true, 0, SCALE), Update(p, Max, v), Enqueue(q, c, true, 0, w)];
      Possible(init, es) &&
      var s := Final(init, es);
      |s.rqs| == |init.rqs| && p in Act(s, c, Max) && Act(s, c, Max)[p] == v && s.rqs[c].max.value == w
  {
    FirstIsAlone(init, c, p);
    var s1 := Apply(init, Enable);
    var s2 := Apply(s1, Enqueue(p, c, true, 0, SCALE));
    StaleFlagLosesBound(s2, Update(p, Max, v), q, 0, w);
    var s3 := Apply(s2, Update(p, Max, v));
    var s4 := Apply(s3, Enqueue(q, c, true, 0, w));
    StepKeepsShape(s3, Enqueue(q, c, true, 0, w));
    SingleStep(s3, Enqueue(q, c, true, 0, w));
    var tail := [Update(p, Max, v), Enqueue(q, c, true, 0, w)];
    assert tail[1..] == [Enqueue(q, c, true, 0, w)];
    assert Possible(s2, tail) && Final(s2, tail) == s4;
    var rest := [Enqueue(p, c, true, 0, SCALE), Update(p, Max, v), Enqueue(q, c, true, 0, w)];
    assert rest[1..] == tail;
    assert Possible(s1, rest) && Final(s1, rest) == s4;
    var es := [Enable, Enqueue(p, c, true, 0, SCALE), Update(p, Max, v), Enqueue(q, c, true, 0, w)];
    assert es[1..] == rest;
    assert Possible(init, es) && Final(init, es) == s4;
  }

  lemma SingleStep(s: Sys, e: Event)
    requires Shape(s) && Enabled(s, e)
    ensures Possible(s, [e]) && Final(s, [e]) == Apply(s, e)
  {
    StepKeepsShape(s, e);
    assert Possible(Apply(s, e), []) && [e][1..] == [];
  }

  // In every run, updates included, the bucket counters are right.
  lemma BucketAccounting(init: Sys, es: seq<Event>, c: CpuId, id: ClampId, b: nat)
    requires Init(init) && Shape(init) && Possible(init, es) && c < |Final(init, es).rqs|
    ensures var s := Final(init, es);
      var side := Get(s.rqs[c], id);
      Sized(side) && (b < |side.tasks| ==> side.tasks[b] == |InBucket(|side.tasks|, Act(s, c, id), b)|)
  {
    InitHolds(init);
    BucketsCount(init, es);
    assert Counted(Get(Final(init, es).rqs[c], id), Act(Final(init, es), c, id));
  }
}
