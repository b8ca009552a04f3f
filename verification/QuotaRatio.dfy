// What the ratios compared by __cfs_schedulable stand for: a group's quota divided
// by its period, and how closely acceptance follows those quotients.
module QuotaRatio {
  import opened Common
  import opened TreeWalk
  import opened Quota

  // Period and quota in microseconds.
  function Period(b: Bandwidth): nat { b.period / NSEC_PER_USEC }

  function Amount(b: Bandwidth): nat
    requires b.quota.Some?
  {
    b.quota.value / NSEC_PER_USEC
  }

  // to_ratio: the quotient in units of 1 / BW_UNIT, rounded down; none exactly for
  // an unlimited quota.
  lemma RatioIsQuotient(b: Bandwidth)
    requires Period(b) > 0
    ensures Ratio(b).None? <==> b.quota.None?
    ensures b.quota.Some? ==> Ratio(b).value * Period(b) <= Amount(b) * BW_UNIT < (Ratio(b).value + 1) * Period(b)
  {
    if b.quota.Some? {
      Floor(Amount(b) * BW_UNIT, Period(b));
    }
  }

  lemma Floor(x: nat, p: nat)
    requires p > 0
    ensures x / p * p <= x < (x / p + 1) * p
  {
    assert x == p * (x / p) + x % p;
    assert x / p * p == p * (x / p) && (x / p + 1) * p == p * (x / p) + p;
  }

  lemma MulMono(a: int, b: int, c: nat)
    requires a <= b
    ensures a * c <= b * c
  {
  }

  // The larger quotient has the larger ratio.
  lemma QuotientOrder(qc: nat, pc: nat, qp: nat, pp: nat, rc: nat, rp: nat, unit: nat)
    requires pc > 0 && pp > 0 && qc * pp <= qp * pc
    requires rc * pc <= qc * unit && qp * unit < (rp + 1) * pp
    ensures rc <= rp
  {
    MulMono(rc * pc, qc * unit, pp);
    Regroup(rc, pc, pp);
    Regroup(qc, unit, pp);
    MulMono(qc * pp, qp * pc, unit);
    Regroup(qp, pc, unit);
    StrictMul(qp * unit, (rp + 1) * pp, pc);
    Regroup(rp + 1, pp, pc);
    assert rc * (pc * pp) < (rp + 1) * (pc * pp);
    if rc > rp {
      MulMono(rp + 1, rc, pc * pp);
    }
  }

  lemma Regroup(a: int, b: int, c: int)
    ensures a * b * c == a * (b * c) == a * c * b
  {
  }

  lemma StrictMul(a: int, b: int, c: nat)
    requires a < b && c > 0
    ensures a * c < b * c
  {
  }

  // A child that uses no larger a share than its parent passes.
  lemma RatioOrder(child: Bandwidth, parent: Bandwidth)
    requires Period(child) > 0 && Period(parent) > 0 && child.quota.Some? && parent.quota.Some?
    requires Amount(child) * Period(parent) <= Amount(parent) * Period(child)
    ensures Within(Ratio(child), Ratio(parent))
  {
    RatioIsQuotient(child);
    RatioIsQuotient(parent);
    QuotientOrder(Amount(child), Period(child), Amount(parent), Period(parent),
                  Ratio(child).value, Ratio(parent).value, BW_UNIT);
  }

  // One that passes exceeds its parent's share by less than one unit.
  lemma WithinOneUnit(child: Bandwidth, parent: Bandwidth)
    requires Period(child) > 0 && Period(parent) > 0 && child.quota.Some? && parent.quota.Some?
    requires Within(Ratio(child), Ratio(parent))
    ensures Amount(child) * BW_UNIT * Period(parent) < (Amount(parent) * BW_UNIT + Period(parent)) * Period(child)
  {
    RatioIsQuotient(child);
    RatioIsQuotient(parent);
    var rp, pc, pp := Ratio(parent).value, Period(child), Period(parent);
    MulMono(Ratio(child).value + 1, rp + 1, pc);
    StrictMul(Amount(child) * BW_UNIT, (rp + 1) * pc, pp);
    Regroup(rp + 1, pc, pp);
    assert (rp + 1) * pp == rp * pp + pp;
    MulMono((rp + 1) * pp, Amount(parent) * BW_UNIT + pp, pc);
  }

  // ---- Over the tree --------------------------------------------------------------

  function Limited(bw: map<Tg, Bandwidth>, tg: Tg): Option<Bandwidth> {
    if tg in bw && bw[tg].quota.Some? then Some(bw[tg]) else None
  }

  function LimitFrom(b: Option<Bandwidth>): Limit {
    if b.Some? then Ratio(b.value) else None
  }

  // The bandwidth of the nearest limited ancestor.
  function NearestBandwidth(t: Tree, bw: map<Tg, Bandwidth>, path: Path, above: Option<Bandwidth>): Option<Bandwidth>
    requires Valid(t, path)
    decreases |path|
  {
    if path == [] then above
    else NearestBandwidth(t.kids[path[0]], bw, path[1..], if Limited(bw, t.id).Some? then Limited(bw, t.id) else above)
  }

  lemma LimitedRatio(bw: map<Tg, Bandwidth>, tg: Tg)
    ensures LimitOf(Ratios(bw), tg) == LimitFrom(Limited(bw, tg))
    ensures Limited(bw, tg).Some? ==> LimitFrom(Limited(bw, tg)).Some?
  {
  }

  lemma {:induction false} NearestIsRatio(t: Tree, bw: map<Tg, Bandwidth>, path: Path, above: Option<Bandwidth>)
    requires Valid(t, path)
    ensures Nearest(t, Ratios(bw), path, LimitFrom(above)) == LimitFrom(NearestBandwidth(t, bw, path, above))
    decreases |path|
  {
    if path != [] {
      LimitedRatio(bw, t.id);
      NearestIsRatio(t.kids[path[0]], bw, path[1..], if Limited(bw, t.id).Some? then Limited(bw, t.id) else above);
    }
  }

  ghost predicate Periods(bw: map<Tg, Bandwidth>) {
    forall g :: g in bw ==> Period(bw[g]) > 0
  }

  // A limited group has at most the share of its nearest limited ancestor.
  predicate Affordable(b: Option<Bandwidth>, above: Option<Bandwidth>) {
    b.Some? && above.Some? && b.value.quota.Some? && above.value.quota.Some? ==>
      Amount(b.value) * Period(above.value) <= Amount(above.value) * Period(b.value)
  }

  function Above(t: Tree, bw: map<Tg, Bandwidth>, path: Path): Option<Bandwidth>
    requires path != [] && Valid(t, path)
  {
    NearestBandwidth(t.kids[path[0]], bw, path[1..], None)
  }

  ghost predicate AllAffordable(t: Tree, bw: map<Tg, Bandwidth>) {
    forall path :: path != [] && Valid(t, path) ==> Affordable(Limited(bw, At(t, path).id), Above(t, bw, path))
  }

  lemma {:induction false} NearestIsLimited(t: Tree, bw: map<Tg, Bandwidth>, path: Path, above: Option<Bandwidth>)
    requires Valid(t, path) && Periods(bw)
    requires above.Some? ==> above.value.quota.Some? && Period(above.value) > 0
    ensures var b := NearestBandwidth(t, bw, path, above);
      b.Some? ==> b.value.quota.Some? && Period(b.value) > 0
    decreases |path|
  {
    if path != [] {
      NearestIsLimited(t.kids[path[0]], bw, path[1..], if Limited(bw, t.id).Some? then Limited(bw, t.id) else above);
    }
  }

  lemma AffordableIsFeasible(t: Tree, bw: map<Tg, Bandwidth>)
    requires Periods(bw) && AllAffordable(t, bw)
    ensures Feasible(t, Ratios(bw))
  {
    forall path | path != [] && Valid(t, path)
      ensures Within(LimitOf(Ratios(bw), At(t, path).id), Nearest(t.kids[path[0]], Ratios(bw), path[1..], None))
    {
      var b, above := Limited(bw, At(t, path).id), Above(t, bw, path);
      NearestIsRatio(t.kids[path[0]], bw, path[1..], None);
      NearestIsLimited(t.kids[path[0]], bw, path[1..], None);
      LimitedRatio(bw, At(t, path).id);
      assert Affordable(b, above);
      if b.Some? && above.Some? {
        RatioOrder(b.value, above.value);
      }
    }
  }

  // A request in range is accepted if with it every limited group has at most the
  // share of its nearest limited ancestor ...
  lemma AffordableIsAccepted(t: Tree, parents: map<Tg, Tg>, s: Settings, tg: Tg, b: Bandwidth)
    requires Linked(t, parents) && t.id !in parents && Periods(s.bw)
    requires InRange(t, tg, b) && AllAffordable(t, s.bw[tg := b])
    ensures Attempt(t, parents, s, tg, b).1 == 0
  {
    AffordableIsFeasible(t, s.bw[tg := b]);
    AcceptedIffFeasible(t, parents, s, tg, b);
  }

  // ... and if it is accepted, no group exceeds that share by a unit.
  lemma AcceptedWithinOneUnit(t: Tree, parents: map<Tg, Tg>, s: Settings, tg: Tg, b: Bandwidth, path: Path)
    requires Linked(t, parents) && t.id !in parents && Periods(s.bw)
    requires Attempt(t, parents, s, tg, b).1 == 0 && path != [] && Valid(t, path)
    ensures var bw := s.bw[tg := b];
      var child, above := Limited(bw, At(t, path).id), Above(t, bw, path);
      child.Some? && above.Some? ==>
        && child.value.quota.Some? && above.value.quota.Some?
        && Amount(child.value) * BW_UNIT * Period(above.value)
             < (Amount(above.value) * BW_UNIT + Period(above.value)) * Period(child.value)
  {
    var bw := s.bw[tg := b];
    AcceptedIffFeasible(t, parents, s, tg, b);
    var child, above := Limited(bw, At(t, path).id), Above(t, bw, path);
    NearestIsRatio(t.kids[path[0]], bw, path[1..], None);
    NearestIsLimited(t.kids[path[0]], bw, path[1..], None);
    LimitedRatio(bw, At(t, path).id);
    if child.Some? && above.Some? {
      WithinOneUnit(child.value, above.value);
    }
  }
}
