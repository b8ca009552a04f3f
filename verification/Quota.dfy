// Feasibility of CFS quotas over the group tree: tg_cfs_schedulable_down as a
// visitor of walk_tg_tree, __cfs_schedulable and tg_set_cfs_bandwidth, with the
// cgroup1 rule (a group without a limit inherits its parent's).
module Quota {
  import opened Common
  import opened TreeWalk

  const NSEC_PER_USEC := 1000
  const MIN_PERIOD := 1_000_000           // min_cfs_quota_period
  const MAX_PERIOD := 1_000_000_000       // max_cfs_quota_period
  const MAX_RUNTIME := 17_592_186_044_415 * NSEC_PER_USEC    // max_cfs_runtime
  const BW_UNIT := 0x10_0000              // 1 << BW_SHIFT
  const EINVAL := -22

  // A ratio, or None for RUNTIME_INF.
  type Limit = Option<nat>

  // struct cfs_bandwidth: period and quota in nanoseconds.
  datatype Bandwidth = Bandwidth(period: nat, quota: Option<nat>)

  // normalize_cfs_quota with to_ratio
  function Ratio(b: Bandwidth): Limit {
    match b.quota
    case None => None
    case Some(q) =>
      var period := b.period / NSEC_PER_USEC;
      Some(if period == 0 then 0 else (q / NSEC_PER_USEC * BW_UNIT) / period)
  }

  type Limits = map<Tg, Limit>

  function LimitOf(m: Limits, tg: Tg): Limit {
    if tg in m then m[tg] else None
  }

  // tg_cfs_schedulable_down: the data are the hierarchical_quota fields.
  function Down(parents: map<Tg, Tg>, ratio: Limits): Visitor<Limits> {
    (hq: Limits, tg: Tg) =>
      if tg !in parents then (hq[tg := None], 0)
      else
        var quota, above := LimitOf(ratio, tg), LimitOf(hq, parents[tg]);
        if quota.None? then (hq[tg := above], 0)
        else if above.Some? && quota.value > above.value then (hq, EINVAL)
        else (hq[tg := quota], 0)
  }

  // tg_nop
  function Nop(): Visitor<Limits> {
    (hq: Limits, tg: Tg) => (hq, 0)
  }

  // ---- Feasibility ----------------------------------------------------------------

  // What a group passes on to its children.
  function Own(t: Tree, ratio: Limits, above: Limit): Limit {
    if LimitOf(ratio, t.id).Some? then LimitOf(ratio, t.id) else above
  }

  // The limit of the nearest limited ancestor of the group at `path` below t,
  // `above` being that of t itself.
  function Nearest(t: Tree, ratio: Limits, path: Path, above: Limit): Limit
    requires Valid(t, path)
    decreases |path|
  {
    if path == [] then above else Nearest(t.kids[path[0]], ratio, path[1..], Own(t, ratio, above))
  }

  predicate Within(quota: Limit, above: Limit) {
    quota.Some? && above.Some? ==> quota.value <= above.value
  }

  ghost predicate FeasibleBelow(t: Tree, ratio: Limits, above: Limit) {
    forall path :: Valid(t, path) ==> Within(LimitOf(ratio, At(t, path).id), Nearest(t, ratio, path, above))
  }

  // Every limited group below the root has at most the ratio of its nearest
  // limited ancestor; the root itself is never limited.
  ghost predicate Feasible(t: Tree, ratio: Limits) {
    forall path :: path != [] && Valid(t, path) ==>
      Within(LimitOf(ratio, At(t, path).id), Nearest(t.kids[path[0]], ratio, path[1..], None))
  }

  // The same, by recursion over the tree.
  predicate Passes(t: Tree, ratio: Limits, above: Limit)
    decreases t, 1
  {
    Within(LimitOf(ratio, t.id), above) && PassesAll(t.kids, ratio, Own(t, ratio, above))
  }

  predicate PassesAll(ts: seq<Tree>, ratio: Limits, above: Limit)
    decreases ts, 0
  {
    ts == [] || (Passes(ts[0], ratio, above) && PassesAll(ts[1..], ratio, above))
  }

  lemma {:induction false} PassesAllAt(ts: seq<Tree>, ratio: Limits, above: Limit)
    ensures PassesAll(ts, ratio, above) <==> forall i :: 0 <= i < |ts| ==> Passes(ts[i], ratio, above)
    decreases |ts|
  {
    if ts != [] {
      PassesAllAt(ts[1..], ratio, above);
      assert forall i :: 0 <= i < |ts| - 1 ==> ts[1..][i] == ts[i + 1];
      assert (forall i :: 0 <= i < |ts| ==> Passes(ts[i], ratio, above)) <==>
        Passes(ts[0], ratio, above) && forall i :: 0 <= i < |ts| - 1 ==> Passes(ts[1..][i], ratio, above) by {
        if Passes(ts[0], ratio, above) && forall i :: 0 <= i < |ts| - 1 ==> Passes(ts[1..][i], ratio, above) {
          forall i | 0 <= i < |ts| ensures Passes(ts[i], ratio, above) {
            if i > 0 { assert ts[1..][i - 1] == ts[i]; }
          }
        }
      }
    }
  }

  lemma {:induction false} PassesIffFeasibleBelow(t: Tree, ratio: Limits, above: Limit)
    ensures Passes(t, ratio, above) <==> FeasibleBelow(t, ratio, above)
    decreases t
  {
    var own := Own(t, ratio, above);
    PassesAllAt(t.kids, ratio, own);
    forall i | 0 <= i < |t.kids| ensures Passes(t.kids[i], ratio, own) <==> FeasibleBelow(t.kids[i], ratio, own) {
      PassesIffFeasibleBelow(t.kids[i], ratio, own);
    }
    if FeasibleBelow(t, ratio, above) {
      assert Valid(t, []);
      forall i | 0 <= i < |t.kids| ensures FeasibleBelow(t.kids[i], ratio, own) {
        forall path | Valid(t.kids[i], path)
          ensures Within(LimitOf(ratio, At(t.kids[i], path).id), Nearest(t.kids[i], ratio, path, own))
        {
          var p := [i] + path;
          assert p[1..] == path;
          assert Valid(t, p);
        }
      }
    }
    if Passes(t, ratio, above) {
      forall path | Valid(t, path) ensures Within(LimitOf(ratio, At(t, path).id), Nearest(t, ratio, path, above)) {
        if path != [] {
          assert FeasibleBelow(t.kids[path[0]], ratio, own);
        }
      }
    }
  }

  lemma FeasibleIffKids(t: Tree, ratio: Limits)
    ensures Feasible(t, ratio) <==> PassesAll(t.kids, ratio, None)
  {
    PassesAllAt(t.kids, ratio, None);
    forall i | 0 <= i < |t.kids| ensures Passes(t.kids[i], ratio, None) <==> FeasibleBelow(t.kids[i], ratio, None) {
      PassesIffFeasibleBelow(t.kids[i], ratio, None);
    }
    if Feasible(t, ratio) {
      forall i | 0 <= i < |t.kids| ensures FeasibleBelow(t.kids[i], ratio, None) {
        forall path | Valid(t.kids[i], path)
          ensures Within(LimitOf(ratio, At(t.kids[i], path).id), Nearest(t.kids[i], ratio, path, None))
        {
          var p := [i] + path;
          assert p[1..] == path;
          assert Valid(t, p);
        }
      }
    }
  }

  // ---- The walk decides feasibility ------------------------------------------------

  ghost predicate SameOutside(hq: Limits, hq': Limits, ids: set<Tg>) {
    forall g :: g !in ids ==> LimitOf(hq', g) == LimitOf(hq, g)
  }

  lemma {:induction false} WalkDecides(t: Tree, parents: map<Tg, Tg>, ratio: Limits, hq: Limits)
    requires Linked(t, parents) && t.id in parents && parents[t.id] !in Ids(t)
    ensures var (hq', ret) := Walk(t, Down(parents, ratio), Nop(), hq);
      (ret == 0 <==> Passes(t, ratio, LimitOf(hq, parents[t.id]))) && SameOutside(hq, hq', Ids(t))
    decreases t, 1
  {
    var above := LimitOf(hq, parents[t.id]);
    var (hq1, r1) := Down(parents, ratio)(hq, t.id);
    if r1 == 0 {
      assert LimitOf(hq1, t.id) == Own(t, ratio, above);
      WalkAllDecides(t.kids, t.id, parents, ratio, hq1);
    }
  }

  lemma {:induction false} WalkAllDecides(ts: seq<Tree>, parent: Tg, parents: map<Tg, Tg>, ratio: Limits, hq: Limits)
    requires LinkedAll(ts, parent, parents) && parent !in IdsAll(ts)
    ensures var (hq', ret) := WalkAll(ts, Down(parents, ratio), Nop(), hq);
      (ret == 0 <==> PassesAll(ts, ratio, LimitOf(hq, parent))) && SameOutside(hq, hq', IdsAll(ts))
    decreases ts, 0
  {
    if ts != [] {
      WalkDecides(ts[0], parents, ratio, hq);
      var (hq1, r1) := Walk(ts[0], Down(parents, ratio), Nop(), hq);
      if r1 == 0 {
        WalkAllDecides(ts[1..], parent, parents, ratio, hq1);
      }
    }
  }

  // ---- What the walk leaves in hierarchical_quota ---------------------------------------

  // Every group of t has its own limit or, without one, that of its nearest
  // limited ancestor.
  predicate Stored(t: Tree, ratio: Limits, above: Limit, hq: Limits)
    decreases t, 1
  {
    LimitOf(hq, t.id) == Own(t, ratio, above) && StoredAll(t.kids, ratio, Own(t, ratio, above), hq)
  }

  predicate StoredAll(ts: seq<Tree>, ratio: Limits, above: Limit, hq: Limits)
    decreases ts, 0
  {
    ts == [] || (Stored(ts[0], ratio, above, hq) && StoredAll(ts[1..], ratio, above, hq))
  }

  lemma {:induction false} StoredFrame(t: Tree, ratio: Limits, above: Limit, hq: Limits, hq': Limits)
    requires Stored(t, ratio, above, hq) && forall g :: g in Ids(t) ==> LimitOf(hq', g) == LimitOf(hq, g)
    ensures Stored(t, ratio, above, hq')
    decreases t, 1
  {
    StoredAllFrame(t.kids, ratio, Own(t, ratio, above), hq, hq');
  }

  lemma {:induction false} StoredAllFrame(ts: seq<Tree>, ratio: Limits, above: Limit, hq: Limits, hq': Limits)
    requires StoredAll(ts, ratio, above, hq) && forall g :: g in IdsAll(ts) ==> LimitOf(hq', g) == LimitOf(hq, g)
    ensures StoredAll(ts, ratio, above, hq')
    decreases ts, 0
  {
    if ts != [] {
      StoredFrame(ts[0], ratio, above, hq, hq');
      StoredAllFrame(ts[1..], ratio, above, hq, hq');
    }
  }

  lemma {:induction false} WalkStores(t: Tree, parents: map<Tg, Tg>, ratio: Limits, hq: Limits)
    requires Linked(t, parents) && t.id in parents && parents[t.id] !in Ids(t)
    ensures var (hq', ret) := Walk(t, Down(parents, ratio), Nop(), hq);
      ret == 0 ==> Stored(t, ratio, LimitOf(hq, parents[t.id]), hq')
    decreases t, 1
  {
    var (hq1, r1) := Down(parents, ratio)(hq, t.id);
    if r1 == 0 {
      WalkAllStores(t.kids, t.id, parents, ratio, hq1);
      WalkAllDecides(t.kids, t.id, parents, ratio, hq1);
    }
  }

  lemma {:induction false} WalkAllStores(ts: seq<Tree>, parent: Tg, parents: map<Tg, Tg>, ratio: Limits, hq: Limits)
    requires LinkedAll(ts, parent, parents) && parent !in IdsAll(ts)
    ensures var (hq', ret) := WalkAll(ts, Down(parents, ratio), Nop(), hq);
      ret == 0 ==> StoredAll(ts, ratio, LimitOf(hq, parent), hq')
    decreases ts, 0
  {
    if ts != [] {
      WalkStores(ts[0], parents, ratio, hq);
      WalkDecides(ts[0], parents, ratio, hq);
      var (hq1, r1) := Walk(ts[0], Down(parents, ratio), Nop(), hq);
      if r1 == 0 {
        WalkAllStores(ts[1..], parent, parents, ratio, hq1);
        WalkAllDecides(ts[1..], parent, parents, ratio, hq1);
        var (hq2, r2) := WalkAll(ts[1..], Down(parents, ratio), Nop(), hq1);
        if r2 == 0 {
          StoredFrame(ts[0], ratio, LimitOf(hq, parent), hq1, hq2);
        }
      }
    }
  }

  // A successful walk leaves exactly that in every group below the root, and no
  // limit in the root, whatever was there before.
  lemma SchedulableStores(t: Tree, parents: map<Tg, Tg>, ratio: Limits, hq: Limits)
    requires Linked(t, parents) && t.id !in parents
    ensures var (hq', ret) := Walk(t, Down(parents, ratio), Nop(), hq);
      ret == 0 ==> LimitOf(hq', t.id).None? && StoredAll(t.kids, ratio, None, hq')
  {
    var (hq1, r1) := Down(parents, ratio)(hq, t.id);
    WalkAllStores(t.kids, t.id, parents, ratio, hq1);
    WalkAllDecides(t.kids, t.id, parents, ratio, hq1);
  }

  // __cfs_schedulable on a whole tree: the result does not depend on what the
  // hierarchical_quota fields held before.
  lemma SchedulableIffFeasible(t: Tree, parents: map<Tg, Tg>, ratio: Limits, hq: Limits)
    requires Linked(t, parents) && t.id !in parents
    ensures Walk(t, Down(parents, ratio), Nop(), hq).1 == 0 <==> Feasible(t, ratio)
  {
    var (hq1, r1) := Down(parents, ratio)(hq, t.id);
    WalkAllDecides(t.kids, t.id, parents, ratio, hq1);
    FeasibleIffKids(t, ratio);
  }

  // ---- Setting a group's bandwidth ---------------------------------------------------

  function Ratios(bw: map<Tg, Bandwidth>): Limits {
    map g | g in bw :: Ratio(bw[g])
  }

  // The checks of tg_set_cfs_bandwidth before the tree is looked at.
  predicate InRange(t: Tree, tg: Tg, b: Bandwidth) {
    && tg != t.id && MIN_PERIOD <= b.period <= MAX_PERIOD
    && (b.quota.Some? ==> MIN_PERIOD <= b.quota.value <= MAX_RUNTIME)
  }

  datatype Settings = Settings(bw: map<Tg, Bandwidth>, hierarchical: Limits)

  // tg_set_cfs_bandwidth, as far as quota and period are concerned. A refused
  // request may still leave new hierarchical_quota values behind.
  function Attempt(t: Tree, parents: map<Tg, Tg>, s: Settings, tg: Tg, b: Bandwidth): (Settings, int) {
    if !InRange(t, tg, b) then (s, EINVAL)
    else
      var (hq, ret) := Walk(t, Down(parents, Ratios(s.bw[tg := b])), Nop(), s.hierarchical);
      (Settings(if ret == 0 then s.bw[tg := b] else s.bw, hq), ret)
  }

  // The code, with the iterative walk.
  class CfsBandwidth {
    const tree: Tree
    const parents: map<Tg, Tg>
    var bw: map<Tg, Bandwidth>
    var hierarchical: Limits

    ghost function View(): Settings
      reads this
    {
      Settings(bw, hierarchical)
    }

    method Set(tg: Tg, b: Bandwidth) returns (ret: int)
      modifies this
      ensures (View(), ret) == Attempt(tree, parents, old(View()), tg, b)
    {
      if tg == tree.id { return EINVAL; }
      if b.period < MIN_PERIOD || (b.quota.Some? && b.quota.value < MIN_PERIOD) { return EINVAL; }
      if b.period > MAX_PERIOD { return EINVAL; }
      if b.quota.Some? && b.quota.value > MAX_RUNTIME { return EINVAL; }
      var hq;
      hq, ret := WalkFrom(tree, Down(parents, Ratios(bw[tg := b])), Nop(), hierarchical);
      hierarchical := hq;
      if ret == 0 {
        bw := bw[tg := b];
      }
    }
  }

  // A request is accepted exactly when it is in range and the tree with it is
  // feasible, whatever earlier requests left in the hierarchical_quota fields;
  // a refused one changes no quota.
  lemma AcceptedIffFeasible(t: Tree, parents: map<Tg, Tg>, s: Settings, tg: Tg, b: Bandwidth)
    requires Linked(t, parents) && t.id !in parents
    ensures var (s', ret) := Attempt(t, parents, s, tg, b);
      && (ret == 0 <==> InRange(t, tg, b) && Feasible(t, Ratios(s.bw[tg := b])))
      && s'.bw == if ret == 0 then s.bw[tg := b] else s.bw
  {
    SchedulableIffFeasible(t, parents, Ratios(s.bw[tg := b]), s.hierarchical);
  }

  ghost function History(t: Tree, parents: map<Tg, Tg>, s: Settings, reqs: seq<(Tg, Bandwidth)>): Settings {
    if reqs == [] then s
    else
      var n := |reqs| - 1;
      Attempt(t, parents, History(t, parents, s, reqs[..n]), reqs[n].0, reqs[n].1).0
  }

  // Feasibility survives every sequence of accepted and refused requests.
  lemma {:induction false} AlwaysFeasible(t: Tree, parents: map<Tg, Tg>, s: Settings, reqs: seq<(Tg, Bandwidth)>)
    requires Linked(t, parents) && t.id !in parents && Feasible(t, Ratios(s.bw))
    ensures Feasible(t, Ratios(History(t, parents, s, reqs).bw))
  {
    if reqs != [] {
      var n := |reqs| - 1;
      AlwaysFeasible(t, parents, s, reqs[..n]);
      AcceptedIffFeasible(t, parents, History(t, parents, s, reqs[..n]), reqs[n].0, reqs[n].1);
    }
  }
}
