// The task-group tree and walk_tg_tree_from, its iterative traversal by parent
// and sibling links.
module TreeWalk {
  // A group is named by its place in memory; parent is its parent's name.
  type Tg = nat

  datatype Tree = Node(id: Tg, kids: seq<Tree>)

  // A visitor may update its data and asks to stop by a non-zero result.
  type Visitor<!S> = (S, Tg) -> (S, int)

  // ---- What the walk should do ----------------------------------------------

  // Pre-order `down`, post-order `up`, stopping at the first non-zero result.
  function Walk<S>(t: Tree, down: Visitor<S>, up: Visitor<S>, s: S): (S, int)
    decreases t, 1
  {
    var (s1, r1) := down(s, t.id);
    if r1 != 0 then (s1, r1)
    else
      var (s2, r2) := WalkAll(t.kids, down, up, s1);
      if r2 != 0 then (s2, r2) else up(s2, t.id)
  }

  function WalkAll<S>(ts: seq<Tree>, down: Visitor<S>, up: Visitor<S>, s: S): (S, int)
    decreases ts, 0
  {
    if ts == [] then (s, 0)
    else
      var (s1, r1) := Walk(ts[0], down, up, s);
      if r1 != 0 then (s1, r1) else WalkAll(ts[1..], down, up, s1)
  }

  // ---- Well-formed trees --------------------------------------------------------

  function Ids(t: Tree): set<Tg>
    decreases t, 1
  {
    {t.id} + IdsAll(t.kids)
  }

  function IdsAll(ts: seq<Tree>): set<Tg>
    decreases ts, 0
  {
    if ts == [] then {} else Ids(ts[0]) + IdsAll(ts[1..])
  }

  // Every group has its own name and knows its parent.
  predicate Linked(t: Tree, parents: map<Tg, Tg>)
    decreases t, 1
  {
    t.id !in IdsAll(t.kids) && LinkedAll(t.kids, t.id, parents)
  }

  predicate LinkedAll(ts: seq<Tree>, parent: Tg, parents: map<Tg, Tg>)
    decreases ts, 0
  {
    ts == [] ||
    (&& ts[0].id in parents && parents[ts[0].id] == parent
     && Linked(ts[0], parents) && Ids(ts[0]) !! IdsAll(ts[1..]) && LinkedAll(ts[1..], parent, parents))
  }

  // ---- Places in the tree -----------------------------------------------------

  // Child positions from the starting group downwards.
  type Path = seq<nat>

  predicate Valid(t: Tree, path: Path)
    decreases |path|
  {
    path == [] || (path[0] < |t.kids| && Valid(t.kids[path[0]], path[1..]))
  }

  function At(t: Tree, path: Path): Tree
    requires Valid(t, path)
    decreases |path|
  {
    if path == [] then t else At(t.kids[path[0]], path[1..])
  }

  // Going one level further down or back up.
  lemma {:induction false} PathStep(t: Tree, path: Path, i: nat)
    ensures Valid(t, path + [i]) <==> Valid(t, path) && i < |At(t, path).kids|
    ensures Valid(t, path + [i]) ==> At(t, path + [i]) == At(t, path).kids[i]
    decreases |path|
  {
    if path != [] {
      assert (path + [i])[1..] == path[1..] + [i];
      if path[0] < |t.kids| {
        PathStep(t.kids[path[0]], path[1..], i);
      }
    } else {
      assert (path + [i])[1..] == [];
    }
  }

  lemma PathUp(t: Tree, path: Path)
    requires path != [] && Valid(t, path)
    ensures var up := path[..|path| - 1];
      Valid(t, up) && path[|path| - 1] < |At(t, up).kids| && At(t, path) == At(t, up).kids[path[|path| - 1]]
  {
    var up := path[..|path| - 1];
    assert path == up + [path[|path| - 1]];
    PathStep(t, up, path[|path| - 1]);
  }

  // ---- What is left to do at a place -------------------------------------------

  // Continue at the group at `path` with its children from the i-th on.
  function Resume<S>(t: Tree, path: Path, i: nat, down: Visitor<S>, up: Visitor<S>, s: S): (S, int)
    requires Valid(t, path) && i <= |At(t, path).kids|
    decreases |path|
  {
    var node := At(t, path);
    var (s1, r1) := WalkAll(node.kids[i..], down, up, s);
    if r1 != 0 then (s1, r1)
    else
      var (s2, r2) := up(s1, node.id);
      if r2 != 0 || path == [] then (s2, r2)
      else
        PathUp(t, path);
        Resume(t, path[..|path| - 1], path[|path| - 1] + 1, down, up, s2)
  }

  function Size(t: Tree): nat
    decreases t, 1
  {
    1 + SizeAll(t.kids)
  }

  function SizeAll(ts: seq<Tree>): nat
    decreases ts, 0
  {
    if ts == [] then 0 else Size(ts[0]) + SizeAll(ts[1..])
  }

  // Groups still to be entered.
  function Ahead(t: Tree, path: Path, i: nat): nat
    requires Valid(t, path) && i <= |At(t, path).kids|
    decreases |path|
  {
    SizeAll(At(t, path).kids[i..]) +
    if path == [] then 0 else
      PathUp(t, path);
      Ahead(t, path[..|path| - 1], path[|path| - 1] + 1)
  }

  lemma ChildFacts(t: Tree, path: Path, i: nat)
    requires Valid(t, path) && i < |At(t, path).kids|
    ensures var kids, p := At(t, path).kids, path + [i];
      && Valid(t, p) && At(t, p) == kids[i] && p != [] && p[..|p| - 1] == path && p[|p| - 1] == i
      && kids[i..] != [] && kids[i..][0] == kids[i] && kids[i..][1..] == kids[i + 1..]
      && kids[i].kids[0..] == kids[i].kids
  {
    PathStep(t, path, i);
  }

  lemma AheadChild(t: Tree, path: Path, i: nat)
    requires Valid(t, path) && i < |At(t, path).kids|
    ensures Valid(t, path + [i]) && Ahead(t, path, i) == 1 + Ahead(t, path + [i], 0)
  {
    ChildFacts(t, path, i);
    var kids := At(t, path).kids;
    assert Ahead(t, path + [i], 0) == SizeAll(kids[i].kids) + Ahead(t, path, i + 1);
    assert SizeAll(kids[i..]) == Size(kids[i]) + SizeAll(kids[i + 1..]);
  }

  lemma EnterChild<S>(t: Tree, path: Path, i: nat, down: Visitor<S>, up: Visitor<S>, s: S)
    requires Valid(t, path) && i < |At(t, path).kids|
    ensures Valid(t, path + [i])
    ensures Resume(t, path, i, down, up, s) ==
      var (s1, r1) := down(s, At(t, path + [i]).id);
      if r1 != 0 then (s1, r1) else Resume(t, path + [i], 0, down, up, s1)
  {
    ChildFacts(t, path, i);
    var kids := At(t, path).kids;
    var (s1, r1) := down(s, kids[i].id);
    var (a, b) := Walk(kids[i], down, up, s);
    assert WalkAll(kids[i..], down, up, s) == if b != 0 then (a, b) else WalkAll(kids[i + 1..], down, up, a);
    if r1 == 0 {
      var (s2, r2) := WalkAll(kids[i].kids, down, up, s1);
      if r2 == 0 {
        var (s3, r3) := up(s2, kids[i].id);
        assert (a, b) == (s3, r3);
        assert Resume(t, path + [i], 0, down, up, s1) ==
          if r3 != 0 then (s3, r3) else Resume(t, path, i + 1, down, up, s3);
      }
    }
  }

  // ---- walk_tg_tree_from --------------------------------------------------------

  // The labels of the goto-driven loop: `Enter` is down:, `Next` is the loop over
  // the children re-entered through up:. It makes exactly the recursive calls,
  // whatever the visitors do, and ends.
  method WalkFrom<S>(t: Tree, down: Visitor<S>, up: Visitor<S>, data: S) returns (s: S, ret: int)
    ensures (s, ret) == Walk(t, down, up, data)
  {
    var path: Path := [];
    var enter := true;
    var i: nat := 0;
    s, ret := data, 0;
    while true
      invariant Valid(t, path) && i <= |At(t, path).kids|
      invariant enter ==> i == 0
      invariant Walk(t, down, up, data) ==
        if enter then
          var (s1, r1) := down(s, At(t, path).id);
          if r1 != 0 then (s1, r1) else Resume(t, path, 0, down, up, s1)
        else Resume(t, path, i, down, up, s)
      decreases 2 * Ahead(t, path, i) + (if enter then 1 else 0), |path|
    {
      var node := At(t, path);
      if enter {
        var (s1, r1) := down(s, node.id);
        s, ret := s1, r1;
        if ret != 0 { return; }
        enter := false;
      }
      if i < |node.kids| {
        EnterChild(t, path, i, down, up, s);
        AheadChild(t, path, i);
        path, i, enter := path + [i], 0, true;
      } else {
        var (s1, r1) := up(s, node.id);
        s, ret := s1, r1;
        if ret != 0 || path == [] { return; }
        PathUp(t, path);
        path, i := path[..|path| - 1], path[|path| - 1] + 1;
      }
    }
  }
}
