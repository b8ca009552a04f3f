// Propagation of effective utilization clamps down the group tree:
// cpu_util_update_eff, which skips subtrees whose clamps did not change.
module ClampTree {
  import opened Common
  import opened TreeWalk

  datatype Clamps = Clamps(min: nat, max: nat)

  type Table = map<Tg, Clamps>

  function Of(m: Table, g: Tg): Clamps {
    if g in m then m[g] else Clamps(0, 0)
  }

  function Least(a: nat, b: nat): nat { if a < b then a else b }

  // Requested clamps capped by the parent's effective ones, protection capped
  // by limit.
  function Effective(req: Clamps, above: Option<Clamps>): Clamps {
    var max := if above.Some? then Least(req.max, above.value.max) else req.max;
    var min := if above.Some? then Least(req.min, above.value.min) else req.min;
    Clamps(Least(min, max), max)
  }

  // c stays within the request and the parent's clamps, protection within limit.
  predicate Permitted(c: Clamps, req: Clamps, above: Option<Clamps>) {
    && c.min <= c.max && c.min <= req.min && c.max <= req.max
    && (above.Some? ==> c.min <= above.value.min && c.max <= above.value.max)
  }

  // Effective clamps are the largest permitted ones.
  lemma EffectiveIsGreatest(req: Clamps, above: Option<Clamps>, c: Clamps)
    ensures Permitted(Effective(req, above), req, above)
    ensures Permitted(c, req, above) ==> c.min <= Effective(req, above).min && c.max <= Effective(req, above).max
  {
  }

  // Every group of the tree has the clamps defined from its request and its
  // parent's effective clamps.
  predicate Settled(t: Tree, req: Table, eff: Table, above: Option<Clamps>)
    decreases t, 1
  {
    Of(eff, t.id) == Effective(Of(req, t.id), above) && SettledAll(t.kids, req, eff, Some(Of(eff, t.id)))
  }

  predicate SettledAll(ts: seq<Tree>, req: Table, eff: Table, above: Option<Clamps>)
    decreases ts, 0
  {
    ts == [] || (Settled(ts[0], req, eff, above) && SettledAll(ts[1..], req, eff, above))
  }

  function Above(parents: map<Tg, Tg>, eff: Table, g: Tg): Option<Clamps> {
    if g in parents then Some(Of(eff, parents[g])) else None
  }

  // The pre-order pass over t, by recursion.
  function Update(t: Tree, parents: map<Tg, Tg>, req: Table, eff: Table): Table
    decreases t, 1
  {
    var e := Effective(Of(req, t.id), Above(parents, eff, t.id));
    if e == Of(eff, t.id) then eff else UpdateAll(t.kids, parents, req, eff[t.id := e])
  }

  function UpdateAll(ts: seq<Tree>, parents: map<Tg, Tg>, req: Table, eff: Table): Table
    decreases ts, 0
  {
    if ts == [] then eff else UpdateAll(ts[1..], parents, req, Update(ts[0], parents, req, eff))
  }

  // ---- The pass as written ------------------------------------------------------

  // What remains once the subtree at `path` is done.
  function Rest(t: Tree, path: Path, parents: map<Tg, Tg>, req: Table, eff: Table): Table
    requires Valid(t, path)
    decreases |path|
  {
    if path == [] then eff
    else
      PathUp(t, path);
      var up, i := path[..|path| - 1], path[|path| - 1];
      Rest(t, up, parents, req, UpdateAll(At(t, up).kids[i + 1..], parents, req, eff))
  }

  lemma RestOfChild(t: Tree, path: Path, i: nat, parents: map<Tg, Tg>, req: Table, eff: Table)
    requires Valid(t, path) && i < |At(t, path).kids|
    ensures Valid(t, path + [i]) && At(t, path + [i]) == At(t, path).kids[i]
    ensures Rest(t, path, parents, req, UpdateAll(At(t, path).kids[i..], parents, req, eff))
         == Rest(t, path + [i], parents, req, Update(At(t, path).kids[i], parents, req, eff))
  {
    ChildFacts(t, path, i);
  }

  // Groups still to be entered after the subtree at `path`.
  ghost function Following(t: Tree, path: Path): nat
    requires Valid(t, path)
  {
    if path == [] then 0 else
      PathUp(t, path);
      Ahead(t, path[..|path| - 1], path[|path| - 1] + 1)
  }

  // One level up from a last child nothing more is left than before.
  lemma LastChild(t: Tree, path: Path, parents: map<Tg, Tg>, req: Table, eff: Table)
    requires Valid(t, path) && path != []
    requires Valid(t, path[..|path| - 1]) && path[|path| - 1] + 1 == |At(t, path[..|path| - 1]).kids|
    ensures Rest(t, path[..|path| - 1], parents, req, eff) == Rest(t, path, parents, req, eff)
    ensures Following(t, path[..|path| - 1]) == Following(t, path)
  {
    PathUp(t, path);
  }

  lemma Sibling(t: Tree, path: Path, parents: map<Tg, Tg>, req: Table, eff: Table)
    requires Valid(t, path) && path != []
    requires Valid(t, path[..|path| - 1]) && path[|path| - 1] + 1 < |At(t, path[..|path| - 1]).kids|
    ensures var next := path[..|path| - 1] + [path[|path| - 1] + 1];
      && Valid(t, next) && Ahead(t, next, 0) < Following(t, path)
      && Rest(t, path, parents, req, eff) == Rest(t, next, parents, req, Update(At(t, next), parents, req, eff))
  {
    RestOfChild(t, path[..|path| - 1], path[|path| - 1] + 1, parents, req, eff);
    AheadChild(t, path[..|path| - 1], path[|path| - 1] + 1);
  }

  // css_next_descendant_pre once the subtree at `path` is done or skipped: the
  // next sibling of the group or of its nearest ancestor that has one.
  method NextAfter(t: Tree, path: Path, ghost parents: map<Tg, Tg>, ghost req: Table, ghost eff: Table)
    returns (done: bool, next: Path)
    requires Valid(t, path)
    ensures done ==> Rest(t, path, parents, req, eff) == eff
    ensures !done ==>
      && Valid(t, next) && Ahead(t, next, 0) < Following(t, path)
      && Rest(t, path, parents, req, eff) == Rest(t, next, parents, req, Update(At(t, next), parents, req, eff))
    decreases |path|
  {
    if path == [] {
      return true, [];
    }
    PathUp(t, path);
    var up, i := path[..|path| - 1], path[|path| - 1];
    if i + 1 < |At(t, up).kids| {
      Sibling(t, path, parents, req, eff);
      return false, up + [i + 1];
    }
    LastChild(t, path, parents, req, eff);
    done, next := NextAfter(t, up, parents, req, eff);
  }

  // cpu_util_update_eff: css_for_each_descendant_pre from the top group, with
  // css_rightmost_descendant to skip an unchanged subtree.
  method UpdateEff(t: Tree, parents: map<Tg, Tg>, req: Table, eff0: Table) returns (eff: Table)
    ensures eff == Update(t, parents, req, eff0)
  {
    eff := eff0;
    var path: Path := [];
    while true
      invariant Valid(t, path)
      invariant Update(t, parents, req, eff0) == Rest(t, path, parents, req, Update(At(t, path), parents, req, eff))
      decreases Ahead(t, path, 0)
    {
      var node := At(t, path);
      var e := Effective(Of(req, node.id), Above(parents, eff, node.id));
      var changed := e != Of(eff, node.id);
      if changed {
        eff := eff[node.id := e];
      }
      if changed && node.kids != [] {
        RestOfChild(t, path, 0, parents, req, eff);
        assert node.kids[0..] == node.kids;
        AheadChild(t, path, 0);
        path := path + [0];
      } else {
        FollowingFewer(t, path);
        var done, next := NextAfter(t, path, parents, req, eff);
        if done { return; }
        path := next;
      }
    }
  }

  lemma FollowingFewer(t: Tree, path: Path)
    requires Valid(t, path)
    ensures Following(t, path) <= Ahead(t, path, 0)
  {
  }

  // ---- Incremental equals full recomputation ---------------------------------------

  ghost predicate SameBut(eff: Table, eff': Table, ids: set<Tg>) {
    forall g :: g !in ids ==> Of(eff', g) == Of(eff, g)
  }

  // Clamps of groups outside a subtree do not matter to it.
  lemma {:induction false} SettledFrame(t: Tree, req: Table, eff: Table, req': Table, eff': Table,
      above: Option<Clamps>)
    requires forall g :: g in Ids(t) ==> Of(eff', g) == Of(eff, g) && Of(req', g) == Of(req, g)
    ensures Settled(t, req', eff', above) <==> Settled(t, req, eff, above)
    decreases t, 1
  {
    SettledAllFrame(t.kids, req, eff, req', eff', Some(Of(eff, t.id)));
  }

  lemma {:induction false} SettledAllFrame(ts: seq<Tree>, req: Table, eff: Table, req': Table, eff': Table,
      above: Option<Clamps>)
    requires forall g :: g in IdsAll(ts) ==> Of(eff', g) == Of(eff, g) && Of(req', g) == Of(req, g)
    ensures SettledAll(ts, req', eff', above) <==> SettledAll(ts, req, eff, above)
    decreases ts, 0
  {
    if ts != [] {
      SettledFrame(ts[0], req, eff, req', eff', above);
      SettledAllFrame(ts[1..], req, eff, req', eff', above);
    }
  }

  // The pass settles t if everything below it was settled against its old clamps.
  lemma {:induction false} UpdateSettles(t: Tree, parents: map<Tg, Tg>, req: Table, eff: Table)
    requires Linked(t, parents) && (t.id in parents ==> parents[t.id] !in Ids(t))
    requires SettledAll(t.kids, req, eff, Some(Of(eff, t.id)))
    ensures var eff' := Update(t, parents, req, eff);
      Settled(t, req, eff', Above(parents, eff, t.id)) && SameBut(eff, eff', Ids(t))
    decreases t, 1
  {
    var e := Effective(Of(req, t.id), Above(parents, eff, t.id));
    if e != Of(eff, t.id) {
      var eff1 := eff[t.id := e];
      BelowSettled(t.kids, req, eff, eff1, Some(Of(eff, t.id)));
      UpdateAllSettles(t.kids, t.id, parents, req, eff1);
    }
  }

  // Each child's subtree is settled below the child itself.
  predicate Below(ts: seq<Tree>, req: Table, eff: Table) {
    ts == [] || (SettledAll(ts[0].kids, req, eff, Some(Of(eff, ts[0].id))) && Below(ts[1..], req, eff))
  }

  lemma {:induction false} BelowSettled(ts: seq<Tree>, req: Table, eff: Table, eff': Table, above: Option<Clamps>)
    requires SettledAll(ts, req, eff, above) && forall g :: g in IdsAll(ts) ==> Of(eff', g) == Of(eff, g)
    ensures Below(ts, req, eff')
  {
    if ts != [] {
      assert Ids(ts[0]) == {ts[0].id} + IdsAll(ts[0].kids) && Ids(ts[0]) <= IdsAll(ts);
      SettledAllFrame(ts[0].kids, req, eff, req, eff', Some(Of(eff, ts[0].id)));
      BelowSettled(ts[1..], req, eff, eff', above);
    }
  }

  lemma {:induction false} BelowFrame(ts: seq<Tree>, req: Table, eff: Table, eff': Table)
    requires Below(ts, req, eff) && forall g :: g in IdsAll(ts) ==> Of(eff', g) == Of(eff, g)
    ensures Below(ts, req, eff')
  {
    if ts != [] {
      assert Ids(ts[0]) == {ts[0].id} + IdsAll(ts[0].kids) && Ids(ts[0]) <= IdsAll(ts);
      SettledAllFrame(ts[0].kids, req, eff, req, eff', Some(Of(eff, ts[0].id)));
      BelowFrame(ts[1..], req, eff, eff');
    }
  }

  lemma {:induction false} UpdateAllSettles(ts: seq<Tree>, parent: Tg, parents: map<Tg, Tg>, req: Table, eff: Table)
    requires LinkedAll(ts, parent, parents) && parent !in IdsAll(ts) && Below(ts, req, eff)
    ensures var eff' := UpdateAll(ts, parents, req, eff);
      SettledAll(ts, req, eff', Some(Of(eff, parent))) && SameBut(eff, eff', IdsAll(ts))
    decreases ts, 0
  {
    if ts != [] {
      UpdateSettles(ts[0], parents, req, eff);
      var eff1 := Update(ts[0], parents, req, eff);
      BelowFrame(ts[1..], req, eff, eff1);
      UpdateAllSettles(ts[1..], parent, parents, req, eff1);
      SettledFrame(ts[0], req, eff1, req, UpdateAll(ts[1..], parents, req, eff1), Some(Of(eff, parent)));
    }
  }

  // ---- In the whole tree -------------------------------------------------------------

  lemma {:induction false} KidFacts(ts: seq<Tree>, i: nat, parent: Tg, parents: map<Tg, Tg>)
    requires LinkedAll(ts, parent, parents) && i < |ts|
    ensures Linked(ts[i], parents) && ts[i].id in parents && parents[ts[i].id] == parent && Ids(ts[i]) <= IdsAll(ts)
  {
    if i > 0 { KidFacts(ts[1..], i - 1, parent, parents); }
  }

  // Replacing the clamps of one child's subtree by settled ones keeps the list settled.
  lemma {:induction false} OneKid(ts: seq<Tree>, i: nat, parent: Tg, parents: map<Tg, Tg>,
                                  req: Table, eff: Table, req': Table, eff': Table, above: Option<Clamps>)
    requires LinkedAll(ts, parent, parents) && i < |ts| && SettledAll(ts, req, eff, above)
    requires Settled(ts[i], req', eff', above)
    requires forall g :: g in IdsAll(ts) && g !in Ids(ts[i]) ==>
      Of(eff', g) == Of(eff, g) && Of(req', g) == Of(req, g)
    ensures SettledAll(ts, req', eff', above)
  {
    KidFacts(ts, i, parent, parents);
    if i == 0 {
      SettledAllFrame(ts[1..], req, eff, req', eff', above);
    } else {
      KidFacts(ts[1..], i - 1, parent, parents);
      SettledFrame(ts[0], req, eff, req', eff', above);
      OneKid(ts[1..], i - 1, parent, parents, req, eff, req', eff', above);
    }
  }

  lemma {:induction false} SettledKid(ts: seq<Tree>, i: nat, req: Table, eff: Table, above: Option<Clamps>)
    requires i < |ts| && SettledAll(ts, req, eff, above)
    ensures Settled(ts[i], req, eff, above)
  {
    if i > 0 { SettledKid(ts[1..], i - 1, req, eff, above); }
  }

  // A change of the request at `path`, followed by the pass from there, settles
  // the tree again.
  lemma {:induction false} PassSettlesBelow(t: Tree, path: Path, parents: map<Tg, Tg>, req: Table, eff: Table,
      c: Clamps)
    requires Valid(t, path) && Linked(t, parents) && (t.id in parents ==> parents[t.id] !in Ids(t))
    requires Settled(t, req, eff, Above(parents, eff, t.id))
    ensures var top := At(t, path);
      var req' := req[top.id := c];
      var eff' := Update(top, parents, req', eff);
      && Settled(t, req', eff', Above(parents, eff, t.id))
      && Ids(top) <= Ids(t) && SameBut(eff, eff', Ids(top))
    decreases |path|
  {
    if path == [] {
      var req' := req[t.id := c];
      SettledAllFrame(t.kids, req, eff, req', eff, Some(Of(eff, t.id)));
      UpdateSettles(t, parents, req', eff);
    } else {
      var kid := t.kids[path[0]];
      KidFacts(t.kids, path[0], t.id, parents);
      SettledKid(t.kids, path[0], req, eff, Some(Of(eff, t.id)));
      PassSettlesBelow(kid, path[1..], parents, req, eff, c);
      var top := At(t, path);
      var req' := req[top.id := c];
      var eff' := Update(top, parents, req', eff);
      assert top.id in Ids(top);
      OneKid(t.kids, path[0], t.id, parents, req, eff, req', eff', Some(Of(eff, t.id)));
    }
  }

  // Incremental equals full recomputation: after one group's request changes,
  // the skipping pass leaves every group of the tree with its defined clamps.
  lemma IncrementalIsFull(root: Tree, path: Path, parents: map<Tg, Tg>, req: Table, eff: Table, c: Clamps)
    requires Valid(root, path) && Linked(root, parents) && root.id !in parents
    requires Settled(root, req, eff, None)
    ensures var g := At(root, path);
      Settled(root, req[g.id := c], Update(g, parents, req[g.id := c], eff), None)
  {
    PassSettlesBelow(root, path, parents, req, eff, c);
  }

  // In a settled tree clamps only shrink on the way down, and the minimum never
  // exceeds the maximum.
  lemma {:induction false} SettledMonotone(t: Tree, path: Path, req: Table, eff: Table, above: Option<Clamps>)
    requires Settled(t, req, eff, above) && Valid(t, path)
    ensures var e := Of(eff, At(t, path).id);
      && e.min <= e.max
      && (above.Some? ==> e.min <= above.value.min && e.max <= above.value.max)
      && (path != [] ==> e.min <= Of(eff, t.id).min && e.max <= Of(eff, t.id).max)
    decreases |path|
  {
    if path != [] {
      SettledKid(t.kids, path[0], req, eff, Some(Of(eff, t.id)));
      SettledMonotone(t.kids[path[0]], path[1..], req, eff, Some(Of(eff, t.id)));
    }
  }

  // The defined clamps are unique: two settled tables agree on the whole tree.
  lemma {:induction false} SettledUnique(t: Tree, path: Path, req: Table, eff: Table, eff': Table,
      above: Option<Clamps>)
    requires Settled(t, req, eff, above) && Settled(t, req, eff', above) && Valid(t, path)
    ensures Of(eff, At(t, path).id) == Of(eff', At(t, path).id)
    decreases |path|
  {
    if path != [] {
      SettledKid(t.kids, path[0], req, eff, Some(Of(eff, t.id)));
      SettledKid(t.kids, path[0], req, eff', Some(Of(eff, t.id)));
      SettledUnique(t.kids[path[0]], path[1..], req, eff, eff', Some(Of(eff, t.id)));
    }
  }

  // A sequence of requests at places of the tree, each followed by its pass.
  function Requests(root: Tree, parents: map<Tg, Tg>, req: Table, eff: Table,
      changes: seq<(Path, Clamps)>): (Table, Table)
    decreases |changes|
  {
    if changes == [] || !Valid(root, changes[0].0) then (req, eff)
    else
      var g := At(root, changes[0].0);
      var req' := req[g.id := changes[0].1];
      Requests(root, parents, req', Update(g, parents, req', eff), changes[1..])
  }

  // Whatever the history, an incremental table is the one any full computation
  // from the final requests would give.
  lemma {:induction false} HistoryIrrelevant(root: Tree, parents: map<Tg, Tg>, req: Table, eff: Table,
                                             changes: seq<(Path, Clamps)>, full: Table, path: Path)
    requires Linked(root, parents) && root.id !in parents && Settled(root, req, eff, None) && Valid(root, path)
    requires Settled(root, Requests(root, parents, req, eff, changes).0, full, None)
    ensures Of(Requests(root, parents, req, eff, changes).1, At(root, path).id) == Of(full, At(root, path).id)
    decreases |changes|
  {
    if changes == [] || !Valid(root, changes[0].0) {
      SettledUnique(root, path, req, eff, full, None);
    } else {
      var g := At(root, changes[0].0);
      var req' := req[g.id := changes[0].1];
      IncrementalIsFull(root, changes[0].0, parents, req, eff, changes[0].1);
      HistoryIrrelevant(root, parents, req', Update(g, parents, req', eff), changes[1..], full, path);
    }
  }
}
