// Deferred wakeups: __wake_q_add, wake_q_add, wake_q_add_safe and wake_up_q,
// for any number of contexts, each with its own queue head. A queue is a list
// through the tasks' own wake_q nodes.
module WakeQ {
  import opened Common

  type Task = nat
  type HeadId = nat

  datatype Link = Null | Tail | To(task: Task)      // Tail is WAKE_Q_TAIL

  datatype Phase =
    | Building
    | Linking(t: Task, safe: bool)     // cmpxchg won, node not yet linked
    | Getting(t: Task)                 // linked, get_task_struct still to come
    | Dropping(t: Task)                // wake_q_add_safe failed, put_task_struct still to come
    | Walking(node: Link)              // in wake_up_q, before its loop test
    | Waking(t: Task, node: Link)      // t's node cleared, wake_up_process still to come
    | Putting(t: Task, node: Link)     // t woken, put_task_struct still to come
    | Finished

  // added, taken and woken record what the context has linked, unlinked and
  // woken, for the statements below.
  datatype Head = Head(first: Link, lastp: Option<Task>, phase: Phase,
                       added: seq<Task>, taken: seq<Task>, woken: seq<Task>)

  // refs are the task reference counts; held are the references that callers of
  // wake_q_add_safe and others hold, apart from those of a context under way here.
  datatype State = State(next: map<Task, Link>, heads: seq<Head>, refs: map<Task, int>, held: map<Task, int>)

  datatype Event =
    | Add(h: HeadId, t: Task, safe: bool)   // the cmpxchg of __wake_q_add
    | Link(h: HeadId)
    | Get(h: HeadId)
    | Drop(h: HeadId)
    | Wake(h: HeadId)                       // entry of wake_up_q
    | Unlink(h: HeadId)                     // node = node->next; wake_q.next = NULL
    | WakeUp(h: HeadId)                     // wake_up_process
    | Put(h: HeadId)                        // put_task_struct
    | Done(h: HeadId)                       // node == WAKE_Q_TAIL
    | Take(t: Task)                         // somebody takes a reference
    | Release(t: Task)

  function Next(s: State, t: Task): Link { if t in s.next then s.next[t] else Null }
  function Refs(s: State, t: Task): int { if t in s.refs then s.refs[t] else 0 }
  function Held(s: State, t: Task): int { if t in s.held then s.held[t] else 0 }

  predicate Enabled(s: State, e: Event) {
    match e
    case Add(h, t, safe) => h < |s.heads| && s.heads[h].phase.Building? && (safe ==> Held(s, t) > 0)
    case Link(h) => h < |s.heads| && s.heads[h].phase.Linking?
    case Get(h) => h < |s.heads| && s.heads[h].phase.Getting?
    case Wake(h) => h < |s.heads| && s.heads[h].phase.Building?
    case Drop(h) => h < |s.heads| && s.heads[h].phase.Dropping?
    case Unlink(h) => h < |s.heads| && s.heads[h].phase.Walking? && s.heads[h].phase.node.To?
    case WakeUp(h) => h < |s.heads| && s.heads[h].phase.Waking?
    case Put(h) => h < |s.heads| && s.heads[h].phase.Putting?
    case Done(h) => h < |s.heads| && s.heads[h].phase.Walking? && s.heads[h].phase.node.Tail?
    case Take(t) => true
    case Release(t) => Held(s, t) > 0
  }

  function Count(s: State, t: Task, dRefs: int, dHeld: int): State {
    s.(refs := s.refs[t := Refs(s, t) + dRefs], held := s.held[t := Held(s, t) + dHeld])
  }

  function PutHead(s: State, h: HeadId, k: Head): State
    requires h < |s.heads|
  {
    s.(heads := s.heads[h := k])
  }

  function Apply(s: State, e: Event): State
    requires Enabled(s, e)
  {
    match e
    case Add(h, t, safe) =>
      if !Next(s, t).Null? then
        if safe then PutHead(Count(s, t, 0, -1), h, s.heads[h].(phase := Dropping(t))) else s
      else
        var s1 := s.(next := s.next[t := Tail]);
        // a safe caller hands its reference over to the queue
        var s2 := if safe then Count(s1, t, 0, -1) else s1;
        PutHead(s2, h, s.heads[h].(phase := Linking(t, safe)))
    case Link(h) =>
      var k := s.heads[h];
      var t := k.phase.t;
      var k' := k.(first := if k.lastp.None? then To(t) else k.first, lastp := Some(t), added := k.added + [t],
                   phase := if k.phase.safe then Building else Getting(t));
      PutHead(if k.lastp.Some? then s.(next := s.next[k.lastp.value := To(t)]) else s, h, k')
    case Get(h) =>
      PutHead(Count(s, s.heads[h].phase.t, 1, 0), h, s.heads[h].(phase := Building))
    case Wake(h) => PutHead(s, h, s.heads[h].(phase := Walking(s.heads[h].first)))
    case Drop(h) =>
      PutHead(Count(s, s.heads[h].phase.t, -1, 0), h, s.heads[h].(phase := Building))
    case Unlink(h) =>
      var k := s.heads[h];
      var t := k.phase.node.task;
      PutHead(s.(next := s.next[t := Null]), h, k.(phase := Waking(t, Next(s, t)), taken := k.taken + [t]))
    case WakeUp(h) =>
      var k := s.heads[h];
      PutHead(s, h, k.(phase := Putting(k.phase.t, k.phase.node), woken := k.woken + [k.phase.t]))
    case Put(h) =>
      var k := s.heads[h];
      PutHead(Count(s, k.phase.t, -1, 0), h, k.(phase := Walking(k.phase.node)))
    case Done(h) => PutHead(s, h, s.heads[h].(phase := Finished))
    case Take(t) => Count(s, t, 1, 1)
    case Release(t) => Count(s, t, -1, -1)
  }

  // ---- Invariant ------------------------------------------------------------------

  // Tasks added to the head and not yet unlinked by it.
  function Rest(k: Head): seq<Task> {
    if |k.taken| <= |k.added| then k.added[|k.taken|..] else []
  }

  // The list through the nodes, from a link.
  ghost predicate Chain(s: State, l: Link, ts: seq<Task>)
    decreases |ts|
  {
    if ts == [] then l.Tail? else l == To(ts[0]) && Chain(s, Next(s, ts[0]), ts[1..])
  }

  // What is unlinked has been woken, but for the last one while that is to come.
  ghost predicate TakenOk(k: Head) {
    && |k.taken| <= |k.added| && k.taken == k.added[..|k.taken|]
    && (match k.phase
        case Waking(t, _) => k.taken == k.woken + [t]
        case _ => k.taken == k.woken)
  }

  ghost predicate ListOk(s: State, k: Head) {
    match k.phase
    case Walking(node) => Chain(s, node, Rest(k))
    case Waking(_, node) => Chain(s, node, Rest(k))
    case Putting(_, node) => Chain(s, node, Rest(k))
    case Finished => Rest(k) == []
    case _ =>
      && k.taken == [] && Chain(s, k.first, k.added)
      && k.lastp == if k.added == [] then None else Some(k.added[|k.added| - 1])
  }

  ghost predicate HeadOk(s: State, k: Head) {
    TakenOk(k) && ListOk(s, k)
  }

  predicate OnHead(k: Head, t: Task) {
    t in Rest(k) || (k.phase.Linking? && k.phase.t == t)
  }

  ghost predicate SomeHead(s: State, t: Task) {
    exists h :: 0 <= h < |s.heads| && OnHead(s.heads[h], t)
  }

  // Each task is on at most one queue, at most once, and its node is free
  // exactly when it is on none.
  ghost predicate Apart(s: State) {
    && (forall g, h, t ::
          0 <= g < |s.heads| && 0 <= h < |s.heads| && OnHead(s.heads[g], t) && OnHead(s.heads[h], t) ==> g == h)
    && (forall h, i, j :: 0 <= h < |s.heads| && 0 <= i < j < |Rest(s.heads[h])| ==>
         Rest(s.heads[h])[i] != Rest(s.heads[h])[j])
    && (forall h :: 0 <= h < |s.heads| && s.heads[h].phase.Linking? ==>
          s.heads[h].phase.t !in Rest(s.heads[h]) && Next(s, s.heads[h].phase.t).Tail?)
    && (forall t :: !Next(s, t).Null? <==> SomeHead(s, t))
  }

  // The references a queue owns: one per task on it, except for a task just
  // added by wake_q_add whose get_task_struct is still to come.
  predicate Pending(k: Head, t: Task) {
    (k.phase.Linking? && k.phase.t == t && !k.phase.safe) || (k.phase.Getting? && k.phase.t == t)
  }

  ghost predicate Owned(s: State, t: Task) {
    !Next(s, t).Null? && forall h :: 0 <= h < |s.heads| ==> !Pending(s.heads[h], t)
  }

  // The context has a reference of its own in hand, to be dropped: that of an
  // unlinked task, or that of a failed wake_q_add_safe.
  predicate InHand(k: Head, t: Task) {
    match k.phase
    case Dropping(u) => u == t
    case Waking(u, _) => u == t
    case Putting(u, _) => u == t
    case _ => false
  }

  function Hands(heads: seq<Head>, t: Task): set<HeadId> {
    set h | 0 <= h < |heads| && InHand(heads[h], t)
  }

  ghost predicate BalancedAt(s: State, t: Task) {
    Refs(s, t) == Held(s, t) + (if Owned(s, t) then 1 else 0) + |Hands(s.heads, t)|
  }

  ghost predicate Balanced(s: State) {
    && (forall t :: Held(s, t) >= 0)
    && (forall t :: BalancedAt(s, t))
  }

  ghost predicate GettingOn(s: State) {
    forall h :: 0 <= h < |s.heads| && s.heads[h].phase.Getting? ==> s.heads[h].phase.t in Rest(s.heads[h])
  }

  ghost predicate HeadsOk(s: State) {
    forall h :: 0 <= h < |s.heads| ==> HeadOk(s, s.heads[h])
  }

  ghost predicate Inv(s: State) {
    HeadsOk(s) && Apart(s) && Balanced(s) && GettingOn(s)
  }

  // ---- Chains -----------------------------------------------------------------------

  lemma {:induction false} ChainFrame(s: State, s': State, l: Link, ts: seq<Task>)
    requires Chain(s, l, ts) && forall t :: t in ts ==> Next(s', t) == Next(s, t)
    ensures Chain(s', l, ts)
    decreases |ts|
  {
    if ts != [] {
      ChainFrame(s, s', Next(s, ts[0]), ts[1..]);
    }
  }

  // Linking a fresh node behind the last one.
  lemma {:induction false} ChainAppend(s: State, s': State, l: Link, ts: seq<Task>, t: Task)
    requires Chain(s, l, ts) && ts != [] && Next(s', t).Tail? && t !in ts
    requires forall i, j :: 0 <= i < j < |ts| ==> ts[i] != ts[j]
    requires Next(s', ts[|ts| - 1]) == To(t) && forall i :: 0 <= i < |ts| - 1 ==> Next(s', ts[i]) == Next(s, ts[i])
    ensures Chain(s', l, ts + [t])
    decreases |ts|
  {
    assert (ts + [t])[1..] == ts[1..] + [t];
    if |ts| == 1 {
      assert ts[1..] + [t] == [t] && [t][1..] == [];
      assert Chain(s', To(t), [t]);
    } else {
      ChainAppend(s, s', Next(s, ts[0]), ts[1..], t);
    }
  }

  // ---- Heads ------------------------------------------------------------------------

  // A head whose tasks keep their links is not disturbed.
  lemma HeadFrame(s: State, s': State, k: Head)
    requires HeadOk(s, k) && forall t :: t in Rest(k) ==> Next(s', t) == Next(s, t)
    ensures HeadOk(s', k)
  {
    match k.phase
    case Walking(node) => ChainFrame(s, s', node, Rest(k));
    case Waking(_, node) => ChainFrame(s, s', node, Rest(k));
    case Putting(_, node) => ChainFrame(s, s', node, Rest(k));
    case Finished =>
    case _ =>
      assert Rest(k) == k.added;
      ChainFrame(s, s', k.first, k.added);
  }

  lemma OthersKeepLinks(s: State, h: HeadId, g: HeadId, t: Task)
    requires Apart(s) && h < |s.heads| && g < |s.heads| && g != h && OnHead(s.heads[h], t)
    ensures t !in Rest(s.heads[g])
  {
  }

  lemma AddKeepsHead(s: State, e: Event, g: HeadId)
    requires Apart(s) && Enabled(s, e) && e.Add? && Next(s, e.t).Null? && g < |s.heads| && HeadOk(s, s.heads[g])
    ensures HeadOk(Apply(s, e), s.heads[g])
  {
    forall t | t in Rest(s.heads[g]) ensures Next(Apply(s, e), t) == Next(s, t) {
      assert OnHead(s.heads[g], t) && SomeHead(s, t);
    }
    HeadFrame(s, Apply(s, e), s.heads[g]);
  }

  lemma AddHeads(s: State, e: Event)
    requires HeadsOk(s) && Apart(s) && Enabled(s, e) && e.Add? && Next(s, e.t).Null?
    ensures HeadsOk(Apply(s, e))
  {
    var s' := Apply(s, e);
    forall g | 0 <= g < |s'.heads| ensures HeadOk(s', s'.heads[g]) {
      assert HeadOk(s, s.heads[g]);
      AddKeepsHead(s, e, g);
    }
  }

  // The head that links its new task behind the last one.
  lemma LinkOwnHead(s: State, e: Event)
    requires Enabled(s, e) && e.Link? && HeadOk(s, s.heads[e.h])
    requires var k := s.heads[e.h];
      && k.phase.t !in k.added && Next(s, k.phase.t).Tail?
      && forall i, j :: 0 <= i < j < |k.added| ==> k.added[i] != k.added[j]
    ensures HeadOk(Apply(s, e), Apply(s, e).heads[e.h])
  {
    var s', h := Apply(s, e), e.h;
    var k := s.heads[h];
    var t := k.phase.t;
    if k.added == [] {
      assert [t][1..] == [] && k.added + [t] == [t];
      assert Chain(s', To(t), [t]);
    } else {
      ChainAppend(s, s', k.first, k.added, t);
    }
  }

  lemma LinkHeads(s: State, e: Event)
    requires HeadsOk(s) && Apart(s) && Enabled(s, e) && e.Link?
    ensures HeadsOk(Apply(s, e))
  {
    var s', h := Apply(s, e), e.h;
    var k := s.heads[h];
    assert HeadOk(s, k) && Rest(k) == k.added;
    LinkOwnHead(s, e);
    forall g | 0 <= g < |s'.heads| && g != h ensures HeadOk(s', s'.heads[g]) {
      if k.lastp.Some? {
        assert OnHead(k, k.lastp.value);
        OthersKeepLinks(s, h, g, k.lastp.value);
      }
      HeadFrame(s, s', s.heads[g]);
    }
  }

  lemma TailApart(ts: seq<Task>)
    requires ts != [] && forall i, j :: 0 <= i < j < |ts| ==> ts[i] != ts[j]
    ensures ts[0] !in ts[1..] && forall u :: u in ts <==> u == ts[0] || u in ts[1..]
    ensures forall i, j :: 0 <= i < j < |ts[1..]| ==> ts[1..][i] != ts[1..][j]
  {
    assert ts == [ts[0]] + ts[1..];
    forall i | 0 <= i < |ts[1..]| ensures ts[1..][i] == ts[i + 1] { }
  }

  // What the head's records say after it takes its first remaining task.
  lemma TakenRest(added: seq<Task>, taken: seq<Task>)
    requires |taken| < |added| && taken == added[..|taken|]
    ensures added[|taken|..] != [] && added[|taken|..][1..] == added[|taken| + 1..]
    ensures taken + [added[|taken|..][0]] == added[..|taken| + 1]
  {
  }

  lemma UnlinkTaken(s: State, e: Event)
    requires Enabled(s, e) && e.Unlink? && HeadOk(s, s.heads[e.h])
    ensures var k, k' := s.heads[e.h], Apply(s, e).heads[e.h];
      && Rest(k) != [] && k.phase.node.task == Rest(k)[0]
      && Rest(k') == Rest(k)[1..] && TakenOk(k') && k'.phase == Waking(Rest(k)[0], Next(s, Rest(k)[0]))
  {
    var k := s.heads[e.h];
    assert Chain(s, k.phase.node, Rest(k));
    TakenRest(k.added, k.taken);
  }

  lemma UnlinkChain(s: State, e: Event)
    requires Enabled(s, e) && e.Unlink? && Rest(s.heads[e.h]) != []
    requires Chain(s, s.heads[e.h].phase.node, Rest(s.heads[e.h]))
    requires forall i, j :: 0 <= i < j < |Rest(s.heads[e.h])| ==> Rest(s.heads[e.h])[i] != Rest(s.heads[e.h])[j]
    ensures Chain(Apply(s, e), Next(s, Rest(s.heads[e.h])[0]), Rest(s.heads[e.h])[1..])
  {
    var ts := Rest(s.heads[e.h]);
    TailApart(ts);
    ChainFrame(s, Apply(s, e), Next(s, ts[0]), ts[1..]);
  }

  lemma UnlinkRest(s: State, e: Event)
    requires HeadsOk(s) && Apart(s) && Enabled(s, e) && e.Unlink?
    ensures var k, k' := s.heads[e.h], Apply(s, e).heads[e.h];
      Rest(k) != [] && k.phase.node.task == Rest(k)[0] && Rest(k') == Rest(k)[1..] && HeadOk(Apply(s, e), k')
  {
    assert HeadOk(s, s.heads[e.h]);
    UnlinkTaken(s, e);
    UnlinkChain(s, e);
  }

  lemma UnlinkHeads(s: State, e: Event)
    requires HeadsOk(s) && Apart(s) && Enabled(s, e) && e.Unlink?
    ensures HeadsOk(Apply(s, e))
  {
    UnlinkRest(s, e);
    var s', h := Apply(s, e), e.h;
    var t := Rest(s.heads[h])[0];
    forall g | 0 <= g < |s'.heads| && g != h ensures HeadOk(s', s'.heads[g]) {
      assert OnHead(s.heads[h], t);
      OthersKeepLinks(s, h, g, t);
      HeadFrame(s, s', s.heads[g]);
    }
  }

  // ---- Apartness ----------------------------------------------------------------------

  // What a change at head h must show for the tasks to stay apart.
  lemma ApartStep(s: State, s': State, h: HeadId, t: Task)
    requires Apart(s) && h < |s.heads| == |s'.heads|
    requires forall g :: 0 <= g < |s.heads| && g != h ==> s'.heads[g] == s.heads[g]
    // only t may join or leave head h, and it joins only when on no head
    requires forall u :: u != t ==> (OnHead(s'.heads[h], u) <==> OnHead(s.heads[h], u))
    requires OnHead(s'.heads[h], t) ==> OnHead(s.heads[h], t) || Next(s, t).Null?
    requires forall i, j :: 0 <= i < j < |Rest(s'.heads[h])| ==> Rest(s'.heads[h])[i] != Rest(s'.heads[h])[j]
    requires s'.heads[h].phase.Linking? ==>
      s'.heads[h].phase.t !in Rest(s'.heads[h]) && Next(s', s'.heads[h].phase.t).Tail?
    requires forall g :: 0 <= g < |s.heads| && g != h && s.heads[g].phase.Linking? ==>
      Next(s', s.heads[g].phase.t) == Next(s, s.heads[g].phase.t)
    requires forall u :: u != t ==> (Next(s', u).Null? <==> Next(s, u).Null?)
    requires !Next(s', t).Null? <==> OnHead(s'.heads[h], t)
    requires OnHead(s.heads[h], t) || OnHead(s'.heads[h], t)
    ensures Apart(s')
  {
  }

  lemma AddApart(s: State, e: Event)
    requires HeadsOk(s) && Apart(s) && Enabled(s, e) && e.Add? && Next(s, e.t).Null?
    ensures Apart(Apply(s, e))
  {
    var s', h := Apply(s, e), e.h;
    var t := e.t;
    forall g | 0 <= g < |s.heads| ensures !OnHead(s.heads[g], t) {
      assert OnHead(s.heads[g], t) ==> SomeHead(s, t);
    }
    assert Rest(s'.heads[h]) == Rest(s.heads[h]);
    ApartStep(s, s', h, e.t);
  }

  lemma LinkedElsewhere(s: State, h: HeadId, u: Task)
    requires Apart(s) && h < |s.heads| && OnHead(s.heads[h], u)
    ensures !Next(s, u).Null?
    ensures forall g :: 0 <= g < |s.heads| && g != h && s.heads[g].phase.Linking? ==> s.heads[g].phase.t != u
  {
    assert SomeHead(s, u);
    forall g | 0 <= g < |s.heads| && g != h && s.heads[g].phase.Linking? ensures s.heads[g].phase.t != u {
      assert OnHead(s.heads[g], s.heads[g].phase.t);
    }
  }

  lemma LinkApart(s: State, e: Event)
    requires HeadsOk(s) && Apart(s) && Enabled(s, e) && e.Link?
    ensures Apart(Apply(s, e))
  {
    var s', h := Apply(s, e), e.h;
    var k, k' := s.heads[h], s'.heads[h];
    assert HeadOk(s, k);
    assert Rest(k) == k.added && Rest(k') == k.added + [k.phase.t];
    if k.lastp.Some? {
      assert OnHead(k, k.lastp.value);
      LinkedElsewhere(s, h, k.lastp.value);
    }
    LinkedElsewhere(s, h, k.phase.t);
    ApartStep(s, s', h, k.phase.t);
  }

  lemma UnlinkApart(s: State, e: Event)
    requires HeadsOk(s) && Apart(s) && Enabled(s, e) && e.Unlink?
    ensures Apart(Apply(s, e))
  {
    UnlinkRest(s, e);
    var s', h := Apply(s, e), e.h;
    var ts := Rest(s.heads[h]);
    var t := ts[0];
    TailApart(ts);
    assert OnHead(s.heads[h], t);
    forall g | 0 <= g < |s.heads| && g != h && s.heads[g].phase.Linking? ensures s.heads[g].phase.t != t {
      assert OnHead(s.heads[g], s.heads[g].phase.t);
    }
    ApartStep(s, s', h, t);
  }

  // Changes of phase that move no task.
  lemma PhaseApart(s: State, s': State, h: HeadId)
    requires Apart(s) && h < |s.heads| == |s'.heads| && s'.next == s.next
    requires forall g :: 0 <= g < |s.heads| && g != h ==> s'.heads[g] == s.heads[g]
    requires Rest(s'.heads[h]) == Rest(s.heads[h]) && !s.heads[h].phase.Linking? && !s'.heads[h].phase.Linking?
    ensures Apart(s')
  {
    forall g, u | 0 <= g < |s.heads| ensures OnHead(s'.heads[g], u) <==> OnHead(s.heads[g], u) { }
    forall u ensures !Next(s', u).Null? <==> SomeHead(s', u) {
      assert Next(s', u) == Next(s, u);
      assert SomeHead(s, u) <==> SomeHead(s', u) by {
        if g :| 0 <= g < |s.heads| && OnHead(s.heads[g], u) {
          assert OnHead(s'.heads[g], u);
        }
        if g :| 0 <= g < |s.heads| && OnHead(s'.heads[g], u) {
          assert OnHead(s.heads[g], u);
        }
      }
    }
  }

  // ---- References ---------------------------------------------------------------------

  ghost predicate NobodyPending(s: State, t: Task) {
    forall h :: 0 <= h < |s.heads| ==> !Pending(s.heads[h], t)
  }

  lemma HandsUpdate(heads: seq<Head>, h: HeadId, k: Head, t: Task)
    requires h < |heads|
    ensures |Hands(heads[h := k], t)|
         == |Hands(heads, t)| - (if InHand(heads[h], t) then 1 else 0) + (if InHand(k, t) then 1 else 0)
  {
    var rest := Hands(heads, t) - {h};
    assert Hands(heads, t) == if InHand(heads[h], t) then rest + {h} else rest;
    assert Hands(heads[h := k], t) == if InHand(k, t) then rest + {h} else rest;
  }

  // Tasks other than the one an event is about keep their standing.
  lemma BalancedStep(s: State, s': State, h: HeadId, t: Task)
    requires Balanced(s) && h < |s.heads| == |s'.heads| && s'.heads == s.heads[h := s'.heads[h]]
    requires forall u :: u != t ==> (Pending(s'.heads[h], u) <==> Pending(s.heads[h], u))
    requires forall u :: u != t ==> (InHand(s'.heads[h], u) <==> InHand(s.heads[h], u))
    requires forall u :: u != t ==>
      (Next(s', u).Null? <==> Next(s, u).Null?) && Refs(s', u) == Refs(s, u) && Held(s', u) == Held(s, u)
    requires Held(s', t) >= 0
    requires Refs(s', t) - Refs(s, t) == Held(s', t) - Held(s, t)
      + (if Owned(s', t) then 1 else 0) - (if Owned(s, t) then 1 else 0)
      + (if InHand(s'.heads[h], t) then 1 else 0) - (if InHand(s.heads[h], t) then 1 else 0)
    ensures Balanced(s')
  {
    forall u ensures BalancedAt(s', u) {
      assert BalancedAt(s, u);
      HandsUpdate(s.heads, h, s'.heads[h], u);
      if u != t {
        assert Owned(s', u) <==> Owned(s, u) by {
          forall g | 0 <= g < |s.heads| ensures Pending(s'.heads[g], u) <==> Pending(s.heads[g], u) { }
        }
      }
    }
  }

  // A pending task is on the head that is adding it, and on no other.
  lemma PendingIsOn(s: State, h: HeadId, t: Task)
    requires Inv(s) && h < |s.heads| && Pending(s.heads[h], t)
    ensures OnHead(s.heads[h], t) && !Next(s, t).Null?
    ensures forall g :: 0 <= g < |s.heads| && g != h ==> !Pending(s.heads[g], t)
  {
  }

  lemma NotOnNotPending(s: State, t: Task)
    requires Inv(s) && Next(s, t).Null?
    ensures NobodyPending(s, t)
  {
  }

  lemma AddBalanced(s: State, e: Event)
    requires Inv(s) && Enabled(s, e) && e.Add? && Next(s, e.t).Null?
    ensures Balanced(Apply(s, e))
  {
    var s', h, t := Apply(s, e), e.h, e.t;
    NotOnNotPending(s, t);
    assert Owned(s', t) <==> e.safe by {
      if !e.safe { assert Pending(s'.heads[h], t); }
    }
    assert !Owned(s, t);
    assert Held(s, t) >= 0;
    BalancedStep(s, s', h, t);
  }

  // A step of head h that changes no ownership and moves references of t only.
  lemma SameBalance(s: State, s': State, h: HeadId, t: Task)
    requires Balanced(s) && h < |s.heads| == |s'.heads| && s'.heads == s.heads[h := s'.heads[h]]
    requires forall u :: Next(s', u).Null? <==> Next(s, u).Null?
    requires forall u :: Pending(s'.heads[h], u) <==> Pending(s.heads[h], u)
    requires forall u :: u != t ==> (InHand(s'.heads[h], u) <==> InHand(s.heads[h], u))
    requires forall u :: u != t ==> Refs(s', u) == Refs(s, u) && Held(s', u) == Held(s, u)
    requires Held(s', t) >= 0
    requires Refs(s', t) - Refs(s, t) == Held(s', t) - Held(s, t)
      + (if InHand(s'.heads[h], t) then 1 else 0) - (if InHand(s.heads[h], t) then 1 else 0)
    ensures Balanced(s')
  {
    assert Owned(s', t) <==> Owned(s, t) by {
      forall g | 0 <= g < |s.heads| ensures Pending(s'.heads[g], t) <==> Pending(s.heads[g], t) { }
    }
    BalancedStep(s, s', h, t);
  }

  lemma LinkBalanced(s: State, e: Event)
    requires HeadsOk(s) && Apart(s) && Balanced(s) && Enabled(s, e) && e.Link?
    ensures Balanced(Apply(s, e))
  {
    var k := s.heads[e.h];
    assert HeadOk(s, k);
    if k.lastp.Some? {
      assert Rest(k) == k.added && OnHead(k, k.lastp.value);
      LinkedElsewhere(s, e.h, k.lastp.value);
    }
    assert Held(s, k.phase.t) >= 0;
    SameBalance(s, Apply(s, e), e.h, k.phase.t);
  }

  lemma GetBalanced(s: State, e: Event)
    requires Inv(s) && Enabled(s, e) && e.Get?
    ensures Balanced(Apply(s, e))
  {
    var s', h := Apply(s, e), e.h;
    var t := s.heads[h].phase.t;
    assert Pending(s.heads[h], t);
    PendingIsOn(s, h, t);
    assert !Owned(s, t) && Owned(s', t);
    assert Held(s, t) >= 0;
    BalancedStep(s, s', h, t);
  }

  lemma UnlinkBalanced(s: State, e: Event)
    requires Inv(s) && Enabled(s, e) && e.Unlink?
    ensures Balanced(Apply(s, e))
  {
    UnlinkRest(s, e);
    var s', h := Apply(s, e), e.h;
    var t := Rest(s.heads[h])[0];
    assert OnHead(s.heads[h], t) && SomeHead(s, t);
    assert Owned(s, t) by {
      forall g | 0 <= g < |s.heads| ensures !Pending(s.heads[g], t) {
        if g != h { assert !OnHead(s.heads[g], t); }
      }
    }
    assert Held(s, t) >= 0;
    BalancedStep(s, s', h, t);
  }

  // Reference counting outside the queues.
  lemma CountBalanced(s: State, s': State, t: Task, d: int)
    requires Balanced(s) && s' == Count(s, t, d, d) && Held(s, t) + d >= 0
    ensures Balanced(s')
  {
    forall u ensures Held(s', u) >= 0 {
      assert Held(s, u) >= 0;
    }
    forall u ensures BalancedAt(s', u) {
      assert BalancedAt(s, u);
      assert Owned(s', u) <==> Owned(s, u);
    }
  }

  // ---- Every step --------------------------------------------------------------------------

  lemma QuietStep(s: State, s': State)
    requires Inv(s) && s'.heads == s.heads && s'.next == s.next && Balanced(s')
    ensures Inv(s')
  {
    forall h | 0 <= h < |s'.heads| ensures HeadOk(s', s'.heads[h]) {
      HeadFrame(s, s', s.heads[h]);
    }
    forall u ensures !Next(s', u).Null? <==> SomeHead(s', u) {
      assert Next(s', u) == Next(s, u) && (SomeHead(s', u) <==> SomeHead(s, u));
    }
  }

  // Events that change a head's phase and no list.
  predicate PhaseEvent(s: State, e: Event)
    requires Enabled(s, e)
  {
    e.Get? || e.Drop? || e.Wake? || e.WakeUp? || e.Put? || e.Done? || (e.Add? && e.safe && !Next(s, e.t).Null?)
  }

  lemma PhaseHead(s: State, s': State, k: Head, k': Head)
    requires HeadOk(s, k) && s'.next == s.next && k'.first == k.first && k'.lastp == k.lastp
    requires k'.added == k.added && k'.taken == k.taken && TakenOk(k')
    requires
      || ((k.phase.Getting? || k.phase.Dropping? || k.phase.Building?) && (k'.phase.Building? || k'.phase.Dropping?))
      || (k.phase.Building? && k'.phase == Walking(k.first))
      || (k.phase.Waking? && k'.phase == Putting(k.phase.t, k.phase.node))
      || (k.phase.Putting? && k'.phase == Walking(k.phase.node))
      || (k.phase == Walking(Tail) && k'.phase.Finished?)
    ensures HeadOk(s', k') && Rest(k') == Rest(k)
  {
    HeadFrame(s, s', k);
    assert k.taken == [] ==> Rest(k) == k.added;
  }

  lemma PhaseOwnHead(s: State, e: Event)
    requires Enabled(s, e) && PhaseEvent(s, e) && HeadOk(s, s.heads[e.h])
    ensures var s' := Apply(s, e);
      s'.next == s.next && HeadOk(s', s'.heads[e.h]) && Rest(s'.heads[e.h]) == Rest(s.heads[e.h])
  {
    PhaseHead(s, Apply(s, e), s.heads[e.h], Apply(s, e).heads[e.h]);
  }

  lemma PhaseHeads(s: State, e: Event)
    requires HeadsOk(s) && Enabled(s, e) && PhaseEvent(s, e)
    ensures HeadsOk(Apply(s, e))
    ensures Rest(Apply(s, e).heads[e.h]) == Rest(s.heads[e.h])
  {
    var s', h := Apply(s, e), e.h;
    PhaseOwnHead(s, e);
    forall g | 0 <= g < |s'.heads| && g != h ensures HeadOk(s', s'.heads[g]) {
      HeadFrame(s, s', s.heads[g]);
    }
  }

  lemma PhaseBalanced(s: State, e: Event)
    requires Balanced(s) && Enabled(s, e) && PhaseEvent(s, e) && !e.Get?
    ensures Balanced(Apply(s, e))
  {
    var t := if e.Add? then e.t else if e.Wake? || e.Done? then 0 else s.heads[e.h].phase.t;
    assert Held(s, t) >= 0;
    SameBalance(s, Apply(s, e), e.h, t);
  }

  lemma PhaseStep(s: State, e: Event)
    requires Inv(s) && Enabled(s, e) && PhaseEvent(s, e)
    ensures Inv(Apply(s, e))
  {
    PhaseHeads(s, e);
    PhaseApart(s, Apply(s, e), e.h);
    if e.Get? { GetBalanced(s, e); } else { PhaseBalanced(s, e); }
  }

  lemma StepKeepsInv(s: State, e: Event)
    requires Inv(s) && Enabled(s, e)
    ensures Inv(Apply(s, e))
  {
    match e
    case Add(h, t, safe) =>
      if Next(s, t).Null? {
        AddHeads(s, e); AddApart(s, e); AddBalanced(s, e);
      } else if safe {
        PhaseStep(s, e);
      }
    case Link(h) => LinkHeads(s, e); LinkApart(s, e); LinkBalanced(s, e); LinkGetting(s, e);
    case Unlink(h) => UnlinkRest(s, e); UnlinkHeads(s, e); UnlinkApart(s, e); UnlinkBalanced(s, e);
    case Take(t) => CountBalanced(s, Apply(s, e), t, 1); QuietStep(s, Apply(s, e));
    case Release(t) => CountBalanced(s, Apply(s, e), t, -1); QuietStep(s, Apply(s, e));
    case _ => PhaseStep(s, e);
  }

  lemma LinkGetting(s: State, e: Event)
    requires Inv(s) && Enabled(s, e) && e.Link?
    ensures GettingOn(Apply(s, e))
  {
  }

  // ---- Runs -----------------------------------------------------------------------------------

  ghost predicate Init(s: State) {
    && s.next == map[] && s.refs == s.held && (forall t :: Held(s, t) >= 0)
    && forall h :: 0 <= h < |s.heads| ==> s.heads[h] == Head(Tail, None, Building, [], [], [])
  }

  lemma InitHolds(s: State)
    requires Init(s)
    ensures Inv(s)
  {
  }

  ghost predicate Possible(s: State, es: seq<Event>)
    decreases |es|
  {
    es == [] || (Enabled(s, es[0]) && Possible(Apply(s, es[0]), es[1..]))
  }

  ghost function Final(s: State, es: seq<Event>): State
    requires Possible(s, es)
    decreases |es|
  {
    if es == [] then s else Final(Apply(s, es[0]), es[1..])
  }

  lemma {:induction false} RunKeepsInv(s: State, es: seq<Event>)
    requires Inv(s) && Possible(s, es)
    ensures Inv(Final(s, es))
    decreases |es|
  {
    if es != [] {
      StepKeepsInv(s, es[0]);
      RunKeepsInv(Apply(s, es[0]), es[1..]);
    }
  }

  // In every interleaving: a task is on at most one queue, at most once; a queue
  // wakes its tasks in the order they were added, and when wake_up_q ends it has
  // woken exactly those, each once per successful add.
  lemma WakesEachOnceInOrder(init: State, es: seq<Event>, g: HeadId, h: HeadId, t: Task)
    requires Init(init) && Possible(init, es) && g < |Final(init, es).heads| && h < |Final(init, es).heads|
    ensures var s := Final(init, es);
      && (OnHead(s.heads[g], t) && OnHead(s.heads[h], t) ==> g == h)
      && multiset(Rest(s.heads[h]))[t] <= 1
      && s.heads[h].woken <= s.heads[h].added
      && (s.heads[h].phase.Finished? ==> s.heads[h].woken == s.heads[h].added)
  {
    InitHolds(init);
    RunKeepsInv(init, es);
    InvWakesInOrder(Final(init, es), g, h, t);
  }

  lemma InvWakesInOrder(s: State, g: HeadId, h: HeadId, t: Task)
    requires HeadsOk(s) && Apart(s) && g < |s.heads| && h < |s.heads|
    ensures OnHead(s.heads[g], t) && OnHead(s.heads[h], t) ==> g == h
    ensures multiset(Rest(s.heads[h]))[t] <= 1
    ensures s.heads[h].woken <= s.heads[h].added
    ensures s.heads[h].phase.Finished? ==> s.heads[h].woken == s.heads[h].added
  {
    OnceEach(Rest(s.heads[h]), t);
    WokenInOrder(s, s.heads[h]);
  }

  lemma WokenInOrder(s: State, k: Head)
    requires HeadOk(s, k)
    ensures k.woken <= k.added && (k.phase.Finished? ==> k.woken == k.added)
  {
    assert k.woken <= k.taken;
    if k.phase.Finished? {
      assert |Rest(k)| == 0;
    }
  }

  lemma {:induction false} OnceEach(ts: seq<Task>, t: Task)
    requires forall i, j :: 0 <= i < j < |ts| ==> ts[i] != ts[j]
    ensures multiset(ts)[t] <= 1
  {
    if ts != [] {
      assert ts == [ts[0]] + ts[1..];
      OnceEach(ts[1..], t);
      assert forall i :: 0 <= i < |ts[1..]| ==> ts[1..][i] == ts[i + 1];
      assert ts[0] !in ts[1..];
    }
  }

  // References balance: a task's count is what its other holders account for,
  // one more while a queue owns one, and one for each context that has unlinked
  // it or failed to add it and not yet dropped its reference. With none of these
  // nothing is left over.
  lemma ReferencesBalance(init: State, es: seq<Event>, t: Task)
    requires Init(init) && Possible(init, es)
    ensures var s := Final(init, es);
      && Refs(s, t) == Held(s, t) + (if Owned(s, t) then 1 else 0) + |Hands(s.heads, t)|
      && (Next(s, t).Null? && Hands(s.heads, t) == {} ==> Refs(s, t) == Held(s, t))
  {
    InitHolds(init);
    RunKeepsInv(init, es);
    assert BalancedAt(Final(init, es), t);
  }

  // A task to be woken is alive, even if others have since added it again, woken
  // it and dropped their references.
  lemma WokenIsAlive(init: State, es: seq<Event>, h: HeadId)
    requires Init(init) && Possible(init, es) && h < |Final(init, es).heads|
    ensures var s := Final(init, es);
      s.heads[h].phase.Waking? || s.heads[h].phase.Putting? ==> Refs(s, s.heads[h].phase.t) >= 1
  {
    InitHolds(init);
    RunKeepsInv(init, es);
    var s := Final(init, es);
    if s.heads[h].phase.Waking? || s.heads[h].phase.Putting? {
      var t := s.heads[h].phase.t;
      assert BalancedAt(s, t) && h in Hands(s.heads, t);
    }
  }

  // The race the count is for: a task unlinked by one context, not yet woken by
  // it, and taken up again by another.
  lemma ReAddDuringWalk(s: State, h: HeadId, g: HeadId, t: Task)
    requires Inv(s) && h < |s.heads| && g < |s.heads| && s.heads[h].phase.Waking? && s.heads[h].phase.t == t
    requires s.heads[g].phase.Building? && Next(s, t).Null? && Held(s, t) > 0
    ensures Enabled(s, Add(g, t, true))
    ensures var s' := Apply(s, Add(g, t, true));
      && |s'.heads| == |s.heads| && s'.heads[h].phase == s.heads[h].phase && OnHead(s'.heads[g], t)
      && Refs(s', t) >= 2
  {
    var s' := Apply(s, Add(g, t, true));
    AddBalanced(s, Add(g, t, true));
    NotOnNotPending(s, t);
    assert Owned(s', t);
    assert BalancedAt(s', t) && h in Hands(s'.heads, t) && Held(s', t) >= 0;
  }

  // ---- A failed add ---------------------------------------------------------------

  // The head has yet to wake the task.
  predicate Due(k: Head, t: Task) {
    OnHead(k, t) || (k.phase.Waking? && k.phase.t == t)
  }

  lemma LinkDue(s: State, e: Event, t: Task)
    requires Enabled(s, e) && e.Link? && HeadOk(s, s.heads[e.h]) && Due(s.heads[e.h], t)
    ensures Due(Apply(s, e).heads[e.h], t) && Apply(s, e).heads[e.h].woken == s.heads[e.h].woken
  {
    var k, k' := s.heads[e.h], Apply(s, e).heads[e.h];
    assert Rest(k) == k.added && Rest(k') == k.added + [k.phase.t];
  }

  lemma UnlinkDue(s: State, e: Event, t: Task)
    requires Enabled(s, e) && e.Unlink? && HeadOk(s, s.heads[e.h]) && Due(s.heads[e.h], t)
    ensures Due(Apply(s, e).heads[e.h], t) && Apply(s, e).heads[e.h].woken == s.heads[e.h].woken
  {
    UnlinkTaken(s, e);
    assert Rest(s.heads[e.h]) == [Rest(s.heads[e.h])[0]] + Rest(s.heads[e.h])[1..];
  }

  lemma PhaseDue(s: State, e: Event, t: Task)
    requires Enabled(s, e) && PhaseEvent(s, e) && HeadOk(s, s.heads[e.h]) && Due(s.heads[e.h], t)
    ensures var k, k' := s.heads[e.h], Apply(s, e).heads[e.h];
      k.woken <= k'.woken && (Due(k', t) || k'.woken == k.woken + [t])
  {
    PhaseOwnHead(s, e);
  }

  // An event at one head leaves the others as they are.
  lemma OtherHeads(s: State, e: Event, g: HeadId)
    requires Enabled(s, e) && g < |s.heads| && (e.Take? || e.Release? || e.h != g)
    ensures |Apply(s, e).heads| == |s.heads| && Apply(s, e).heads[g] == s.heads[g]
  {
  }

  lemma OwnDue(s: State, e: Event, t: Task)
    requires Enabled(s, e) && !e.Take? && !e.Release? && HeadOk(s, s.heads[e.h]) && Due(s.heads[e.h], t)
    ensures |Apply(s, e).heads| == |s.heads|
    ensures var k, k' := s.heads[e.h], Apply(s, e).heads[e.h];
      k.woken <= k'.woken && (Due(k', t) || k'.woken == k.woken + [t])
  {
    if e.Link? {
      LinkDue(s, e, t);
    } else if e.Unlink? {
      UnlinkDue(s, e, t);
    } else if PhaseEvent(s, e) {
      PhaseDue(s, e, t);
    } else {
      AddDue(s, e, t);
    }
  }

  lemma AddDue(s: State, e: Event, t: Task)
    requires Enabled(s, e) && e.Add? && Due(s.heads[e.h], t)
    ensures Due(Apply(s, e).heads[e.h], t) && Apply(s, e).heads[e.h].woken == s.heads[e.h].woken
  {
  }

  // It stays due until the head wakes it.
  lemma DueStep(s: State, e: Event, g: HeadId, t: Task)
    requires HeadsOk(s) && Enabled(s, e) && g < |s.heads| && Due(s.heads[g], t)
    ensures var s' := Apply(s, e);
      && |s'.heads| == |s.heads| && s.heads[g].woken <= s'.heads[g].woken
      && (Due(s'.heads[g], t) || s'.heads[g].woken == s.heads[g].woken + [t])
  {
    assert HeadOk(s, s.heads[g]);
    if e.Take? || e.Release? || e.h != g {
      OtherHeads(s, e, g);
    } else {
      OwnDue(s, e, t);
    }
  }

  lemma {:induction false} WokenGrows(s: State, es: seq<Event>, g: HeadId)
    requires Possible(s, es) && g < |s.heads|
    ensures |Final(s, es).heads| == |s.heads| && s.heads[g].woken <= Final(s, es).heads[g].woken
    decreases |es|
  {
    if es != [] {
      WokenGrows(Apply(s, es[0]), es[1..], g);
    }
  }

  lemma AppendedLater(w: seq<Task>, w1: seq<Task>, w2: seq<Task>, t: Task)
    requires w1 == w + [t] && w1 <= w2
    ensures |w| <= |w2| && t in w2[|w|..]
  {
    assert w2[|w|..][0] == w1[|w|];
  }

  lemma InLongerSuffix(w: seq<Task>, i: nat, j: nat, t: Task)
    requires i <= j <= |w| && t in w[j..]
    ensures t in w[i..]
  {
    var k :| 0 <= k < |w[j..]| && w[j..][k] == t;
    assert w[i..][j - i + k] == t;
  }

  // So a head that is done has woken whatever was due.
  lemma {:induction false} DueIsWoken(s: State, es: seq<Event>, g: HeadId, t: Task)
    requires Inv(s) && Possible(s, es) && g < |s.heads| && Due(s.heads[g], t)
    ensures var s' := Final(s, es);
      && |s'.heads| == |s.heads| && s.heads[g].woken <= s'.heads[g].woken
      && (s'.heads[g].phase.Finished? ==> t in s'.heads[g].woken[|s.heads[g].woken|..])
    decreases |es|
  {
    WokenGrows(s, es, g);
    if es == [] {
      assert HeadOk(s, s.heads[g]);
    } else {
      var s1, s' := Apply(s, es[0]), Final(s, es);
      StepKeepsInv(s, es[0]);
      DueStep(s, es[0], g, t);
      if Due(s1.heads[g], t) {
        DueIsWoken(s1, es[1..], g, t);
        if s'.heads[g].phase.Finished? {
          InLongerSuffix(s'.heads[g].woken, |s.heads[g].woken|, |s1.heads[g].woken|, t);
        }
      } else {
        WokenGrows(s1, es[1..], g);
        AppendedLater(s.heads[g].woken, s1.heads[g].woken, s'.heads[g].woken, t);
      }
    }
  }

  // A task that cannot be added is on the queue of some head, or being linked
  // there, and whatever happens next that head wakes it before it is done.
  lemma FailedAddIsServed(init: State, es: seq<Event>, h: HeadId, t: Task, safe: bool) returns (g: HeadId)
    requires Init(init) && Possible(init, es)
    requires Enabled(Final(init, es), Add(h, t, safe)) && !Next(Final(init, es), t).Null?
    ensures var s := Final(init, es);
      && g < |s.heads| && OnHead(s.heads[g], t)
      && forall after :: Possible(s, [Add(h, t, safe)] + after) ==>
           var s' := Final(s, [Add(h, t, safe)] + after);
           && |s'.heads| == |s.heads| && s.heads[g].woken <= s'.heads[g].woken
           && (s'.heads[g].phase.Finished? ==> t in s'.heads[g].woken[|s.heads[g].woken|..])
  {
    InitHolds(init);
    RunKeepsInv(init, es);
    var s := Final(init, es);
    assert SomeHead(s, t);
    g :| 0 <= g < |s.heads| && OnHead(s.heads[g], t);
    forall after | Possible(s, [Add(h, t, safe)] + after)
      ensures var s' := Final(s, [Add(h, t, safe)] + after);
        && |s'.heads| == |s.heads| && s.heads[g].woken <= s'.heads[g].woken
        && (s'.heads[g].phase.Finished? ==> t in s'.heads[g].woken[|s.heads[g].woken|..])
    {
      DueIsWoken(s, [Add(h, t, safe)] + after, g, t);
    }
  }

  // ---- A successful add -------------------------------------------------------------

  // A task on no queue is taken by the head that adds it, by either call.
  lemma FreeTaskIsTaken(s: State, h: HeadId, t: Task, safe: bool)
    requires Enabled(s, Add(h, t, safe)) && Next(s, t).Null?
    ensures var s' := Apply(s, Add(h, t, safe));
      && |s'.heads| == |s.heads| && OnHead(s'.heads[h], t) && !Next(s', t).Null?
      && s'.heads[h].woken == s.heads[h].woken && Enabled(s', Link(h))
  {
  }

  // Once linked it is the last of the head's list.
  lemma TakenTaskIsLast(s: State, h: HeadId)
    requires Enabled(s, Link(h))
    ensures var s' := Apply(s, Link(h));
      |s'.heads| == |s.heads| && s'.heads[h].added == s.heads[h].added + [s.heads[h].phase.t]
  {
  }

  // And whatever happens next, that head wakes it before it is done.
  lemma AddedIsWoken(s: State, h: HeadId, t: Task, safe: bool, after: seq<Event>)
    requires Inv(s) && Enabled(s, Add(h, t, safe)) && Next(s, t).Null?
    requires Possible(Apply(s, Add(h, t, safe)), after)
    ensures var s' := Final(Apply(s, Add(h, t, safe)), after);
      && |s'.heads| == |s.heads| && s.heads[h].woken <= s'.heads[h].woken
      && (s'.heads[h].phase.Finished? ==> t in s'.heads[h].woken[|s.heads[h].woken|..])
  {
    FreeTaskIsTaken(s, h, t, safe);
    StepKeepsInv(s, Add(h, t, safe));
    DueIsWoken(Apply(s, Add(h, t, safe)), after, h, t);
  }

  // The same from boot: no successful add of any run is lost.
  lemma NoAddIsLost(init: State, es: seq<Event>, h: HeadId, t: Task, safe: bool, after: seq<Event>)
    requires Init(init) && Possible(init, es)
    requires Enabled(Final(init, es), Add(h, t, safe)) && Next(Final(init, es), t).Null?
    requires Possible(Apply(Final(init, es), Add(h, t, safe)), after)
    ensures var s, s' := Final(init, es), Final(Apply(Final(init, es), Add(h, t, safe)), after);
      && |s'.heads| == |s.heads| && s.heads[h].woken <= s'.heads[h].woken
      && (s'.heads[h].phase.Finished? ==> t in s'.heads[h].woken[|s.heads[h].woken|..])
  {
    InitHolds(init);
    RunKeepsInv(init, es);
    AddedIsWoken(Final(init, es), h, t, safe, after);
  }

  // ---- The walk ends --------------------------------------------------------------------

  ghost predicate CanFinish(s: State, h: HeadId) {
    exists es :: Possible(s, es) && h < |Final(s, es).heads| && Final(s, es).heads[h].phase.Finished?
  }

  lemma FinishesAfter(s: State, e: Event, h: HeadId)
    requires Enabled(s, e) && CanFinish(Apply(s, e), h)
    ensures CanFinish(s, h)
  {
    var es :| Possible(Apply(s, e), es) && h < |Final(Apply(s, e), es).heads|
      && Final(Apply(s, e), es).heads[h].phase.Finished?;
    assert ([e] + es)[1..] == es;
    assert Possible(s, [e] + es) && Final(s, [e] + es) == Final(Apply(s, e), es);
  }

  // What the context's next step is.
  function NextStep(k: Head, h: HeadId): Event {
    match k.phase
    case Building => Wake(h)
    case Linking(_, _) => Link(h)
    case Getting(_) => Get(h)
    case Dropping(_) => Drop(h)
    case Walking(node) => if node.To? then Unlink(h) else Done(h)
    case Waking(_, _) => WakeUp(h)
    case Putting(_, _) => Put(h)
    case Finished => Done(h)
  }

  // How far a phase is from the next test of the loop.
  function Stage(k: Head): nat {
    match k.phase
    case Linking(_, _) => 9
    case Getting(_) => 8
    case Dropping(_) => 8
    case Building => 7
    case Waking(_, _) => 6
    case Putting(_, _) => 5
    case Walking(_) => 4
    case Finished => 0
  }

  // Steps it has left at most.
  function Steps(k: Head): nat { 3 * |Rest(k)| + Stage(k) }

  lemma UnlinkShrinks(s: State, h: HeadId)
    requires Enabled(s, Unlink(h)) && HeadOk(s, s.heads[h])
    ensures Steps(Apply(s, Unlink(h)).heads[h]) < Steps(s.heads[h])
  {
    UnlinkTaken(s, Unlink(h));
  }

  lemma PhaseShrinks(s: State, e: Event)
    requires Enabled(s, e) && PhaseEvent(s, e) && !e.Add? && HeadOk(s, s.heads[e.h])
    ensures Steps(Apply(s, e).heads[e.h]) < Steps(s.heads[e.h])
  {
    PhaseOwnHead(s, e);
  }

  lemma NextStepShrinks(s: State, h: HeadId)
    requires h < |s.heads| && HeadOk(s, s.heads[h]) && !s.heads[h].phase.Finished?
    ensures Enabled(s, NextStep(s.heads[h], h))
    ensures var s' := Apply(s, NextStep(s.heads[h], h));
      && |s'.heads| == |s.heads| && !s'.heads[h].phase.Linking?
      && (s.heads[h].phase.Linking? || Steps(s'.heads[h]) < Steps(s.heads[h]))
  {
    var k := s.heads[h];
    if k.phase.Walking? {
      assert Chain(s, k.phase.node, Rest(k));
      if k.phase.node.To? { UnlinkShrinks(s, h); } else { PhaseShrinks(s, Done(h)); }
    } else if !k.phase.Linking? {
      PhaseShrinks(s, NextStep(k, h));
    }
  }

  // From every reachable state every wake_up_q can run to its end.
  lemma {:induction false} WalkCanFinish(s: State, h: HeadId)
    requires Inv(s) && h < |s.heads|
    ensures CanFinish(s, h)
    decreases if s.heads[h].phase.Linking? then 1 else 0, Steps(s.heads[h])
  {
    if s.heads[h].phase.Finished? {
      assert Possible(s, []) && Final(s, []) == s;
    } else {
      var e := NextStep(s.heads[h], h);
      assert HeadOk(s, s.heads[h]);
      NextStepShrinks(s, h);
      StepKeepsInv(s, e);
      WalkCanFinish(Apply(s, e), h);
      FinishesAfter(s, e, h);
    }
  }
}
