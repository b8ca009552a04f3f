// What a request for a new mask, a migrate-disable region and a waiting call
// achieve, on the events of Affinity.
module AffinityRequests {
  import opened Common
  import opened Affinity

  // ---- The mask ------------------------------------------------------------------

  // EINVAL for PF_NO_SETAFFINITY or an empty mask, EBUSY for a task that would
  // lock itself out.
  predicate Refused(s: State, e: Event) {
    e.SetAffinity? && (e.forbidden || e.newMask == {} || (e.self && s.p.depth > 0 && s.p.cpu !in e.newMask))
  }

  // A refused request changes nothing but its own call.
  lemma RefusedIsIgnored(s: State, e: Event)
    requires Enabled(s, e) && Refused(s, e)
    ensures var t := Apply(s, e);
      t.p == s.p && t.b.installed == s.b.installed && t.b.stops == s.b.stops && t.b.dones == s.b.dones
      && e.c in t.b.pc && t.b.pc[e.c] == Returned
  {
  }

  // Any other request takes effect on the mask; if the task is on a CPU of it the
  // call is done, and otherwise, unless nothing changes, it waits for the
  // instance that is now installed or was.
  lemma AcceptedTakesEffect(s: State, e: Event)
    requires Enabled(s, e) && e.SetAffinity? && !Refused(s, e)
    ensures var t := Apply(s, e);
      && t.p.mask == e.newMask
      && e.c in t.b.pc
      && (t.b.pc[e.c] == Returned <==> s.p.mask == e.newMask || s.p.cpu in e.newMask)
      && (t.b.pc[e.c] != Returned ==>
            t.b.pc[e.c] == Waiting(if s.b.installed.Some? then s.b.installed.value else e.c))
  {
  }

  // A queued task that may migrate is moved at once, and only then.
  lemma RequestMovesQueued(s: State, e: Event)
    requires Enabled(s, e) && e.SetAffinity? && !Refused(s, e) && s.p.mask != e.newMask
    ensures Apply(s, e).p.cpu ==
      if s.p.cpu !in e.newMask && s.p.run.Queued? && s.p.depth == 0 then e.dest else s.p.cpu
  {
  }

  lemma OnlyRequestsChangeMask(s: State, e: Event)
    requires Enabled(s, e) && !e.SetAffinity?
    ensures Apply(s, e).p.mask == s.p.mask
  {
  }

  // The mask of the last request of a run that is not refused.
  ghost function LastMask(s: State, es: seq<Event>, mask: set<Cpu>): set<Cpu>
    requires Possible(s, es)
    decreases |es|
  {
    if es == [] then mask
    else
      LastMask(Apply(s, es[0]), es[1..],
               if es[0].SetAffinity? && !Refused(s, es[0]) then es[0].newMask else mask)
  }

  // In every run cpus_mask is what was last asked for.
  lemma {:induction false} MaskIsLastAccepted(s: State, es: seq<Event>)
    requires Possible(s, es)
    ensures Final(s, es).p.mask == LastMask(s, es, s.p.mask)
    decreases |es|
  {
    if es != [] {
      var e := es[0];
      if !e.SetAffinity? {
        OnlyRequestsChangeMask(s, e);
      } else if Refused(s, e) {
        RefusedIsIgnored(s, e);
      } else {
        AcceptedTakesEffect(s, e);
      }
      MaskIsLastAccepted(Apply(s, e), es[1..]);
    }
  }

  // ---- Migrate-disable -------------------------------------------------------------

  // How deep a run leaves the task in migrate-disable.
  function Nesting(e: Event): int {
    if e.Disable? then 1 else if e.EnableNested? || e.EnableFinish? then -1 else 0
  }

  lemma DepthStep(s: State, e: Event)
    requires TargetInv(s.p) && Enabled(s, e)
    ensures Apply(s, e).p.depth == s.p.depth + Nesting(e)
  {
  }

  function NestingSum(es: seq<Event>): int {
    if es == [] then 0 else Nesting(es[0]) + NestingSum(es[1..])
  }

  // In every run migration_disabled is the number of regions entered and not left.
  lemma {:induction false} DepthIsNesting(s: State, es: seq<Event>)
    requires Inv(s) && Possible(s, es)
    ensures Final(s, es).p.depth == s.p.depth + NestingSum(es)
    decreases |es|
  {
    if es != [] {
      DepthStep(s, es[0]);
      StepKeepsInv(s, es[0]);
      DepthIsNesting(Apply(s, es[0]), es[1..]);
    }
  }

  lemma MoveLeavesDisabled(s: State, who: Option<Call>, dest: Cpu)
    requires s.p.depth > 0
    ensures AffineMove(s, who, dest).p.cpu == s.p.cpu
  {
  }

  // A migration-disabled task is not moved, by anything.
  lemma DisabledStays(s: State, e: Event)
    requires TargetInv(s.p) && Enabled(s, e) && s.p.depth > 0
    ensures Apply(s, e).p.cpu == s.p.cpu
  {
    match e
    case SetAffinity(c, newMask, dest, _, _) =>
      MoveLeavesDisabled(State(s.p.(mask := newMask), NewCall(s.b, c)), Some(c), dest);
    case EnableBegin(dest) => MoveLeavesDisabled(s.(p := s.p.(pin := None)), None, dest);
    case _ =>
  }

  // From a first event to the last of a run inside one region.
  ghost predicate StaysDisabled(s: State, es: seq<Event>)
    requires Possible(s, es)
    decreases |es|
  {
    es == [] || (s.p.depth > 0 && StaysDisabled(Apply(s, es[0]), es[1..]))
  }

  lemma {:induction false} RegionStaysPut(s: State, es: seq<Event>)
    requires Inv(s) && Possible(s, es) && StaysDisabled(s, es)
    ensures Final(s, es).p.cpu == s.p.cpu
    decreases |es|
  {
    if es != [] {
      DisabledStays(s, es[0]);
      StepKeepsInv(s, es[0]);
      RegionStaysPut(Apply(s, es[0]), es[1..]);
    }
  }

  // ---- The scheduler's steps -----------------------------------------------------------

  // Where the task is and what it does after a step of the scheduler.
  lemma SchedulerSteps(s: State, e: Event)
    requires Enabled(s, e)
    ensures var p := Apply(s, e).p;
      && (e.Preempt? || e.Activate? ==> p.run.Queued? && p.cpu == s.p.cpu)
      && (e.Sleep? ==> p.run.Blocked? && p.cpu == s.p.cpu)
      && (e.Resume? ==> p.run.Running? && p.cpu == s.p.cpu)
      && (e.Wake? ==> p.run.Waking? && p.cpu == e.to)
      && (e.Balance? ==> p.run.Queued? && p.cpu == e.to)
      // switching away narrows cpus_ptr inside a region, the outermost enable widens it
      && ((e.Preempt? || e.Sleep?) && s.p.depth > 0 ==> p.pin == Some(if s.p.pin.Some? then s.p.pin.value else s.p.cpu))
      && (e.EnableBegin? ==> p.pin.None? && p.enabling)
      && (e.EnableFinish? ==> !p.enabling)
  {
  }

  // A stopper that finds the task on its own CPU outside the mask, queued and not
  // migration-disabled, moves it where it is told.
  lemma StopperMoves(s: State, st: Stop, dest: Cpu)
    requires Inv(s) && Enabled(s, RunStop(st, dest)) && st.target == Some(s.p.cpu) && s.p.depth == 0
    ensures Apply(s, RunStop(st, dest)).p.cpu ==
      if s.p.cpu !in s.p.mask && s.p.run.Queued? then dest else s.p.cpu
    ensures s.b.installed.Some? && Apply(s, RunStop(st, dest)).b.installed.None?
    ensures st.inst in Apply(s, RunStop(st, dest)).b.dones
  {
    OnlyStop(s.b, st);
  }

  // ---- Every call can return ---------------------------------------------------------

  ghost predicate CanReturn(s: State, c: Call) {
    exists es :: Possible(s, es) && c in Final(s, es).b.pc && Final(s, es).b.pc[c] == Returned
  }

  lemma {:induction false} Continue(s: State, es: seq<Event>, fs: seq<Event>)
    requires Possible(s, es) && Possible(Final(s, es), fs)
    ensures Possible(s, es + fs) && Final(s, es + fs) == Final(Final(s, es), fs)
    decreases |es|
  {
    if es == [] {
      assert es + fs == fs;
    } else {
      assert (es + fs)[1..] == es[1..] + fs;
      Continue(Apply(s, es[0]), es[1..], fs);
    }
  }

  lemma ReturnsAfter(s: State, es: seq<Event>, c: Call)
    requires Possible(s, es) && CanReturn(Final(s, es), c)
    ensures CanReturn(s, c)
  {
    var t := Final(s, es);
    var fs :| Possible(t, fs) && c in Final(t, fs).b.pc && Final(t, fs).b.pc[c] == Returned;
    Continue(s, es, fs);
  }

  lemma ReturnsAfterStep(s: State, e: Event, c: Call)
    requires Enabled(s, e) && CanReturn(Apply(s, e), c)
    ensures CanReturn(s, c)
  {
    assert Possible(Apply(s, e), []) && [e][1..] == [];
    assert Possible(s, [e]) && Final(s, [e]) == Apply(s, e);
    ReturnsAfter(s, [e], c);
  }

  // Whoever still holds an instance whose installer has got past its own wait can
  // see the completion and drop the reference.
  lemma HolderIsDone(s: State, c: Call, d: Call)
    requires Inv(s) && c in s.b.pc && s.b.pc[c].Draining? && d in Holders(s.b.pc, c)
    ensures d != c && Of(s.b, c).done && s.b.pc[d].on == c
  {
    assert WaiterOk(s.b, d);
  }

  lemma DropShrinks(s: State, c: Call, d: Call)
    requires Enabled(s, Drop(d)) && s.b.pc[d].on == c && c in s.b.pc && s.b.pc[c].Draining?
    ensures var t := Apply(s, Drop(d));
      c in t.b.pc && t.b.pc[c].Draining? && |Holders(t.b.pc, c)| < |Holders(s.b.pc, c)|
  {
    HoldersUpdate(s.b.pc, d, Draining, c);
  }

  lemma DropThenDrain(s: State, c: Call, d: Call)
    requires Inv(s) && c in s.b.pc && s.b.pc[c].Draining? && d in s.b.pc && s.b.pc[d] == Seen(c)
    ensures CanReturn(s, c)
    decreases |Holders(s.b.pc, c)|, 0
  {
    DropShrinks(s, c, d);
    StepKeepsInv(s, Drop(d));
    DrainingReturns(Apply(s, Drop(d)), c);
    ReturnsAfterStep(s, Drop(d), c);
  }

  lemma SeeThenDrop(s: State, c: Call, d: Call)
    requires Inv(s) && c in s.b.pc && s.b.pc[c].Draining?
    requires d in s.b.pc && s.b.pc[d] == Waiting(c) && Of(s.b, c).done
    ensures CanReturn(s, c)
    decreases |Holders(s.b.pc, c)|, 1
  {
    HoldersUpdate(s.b.pc, d, Seen(c), c);
    StepKeepsInv(s, SeeDone(d));
    DropThenDrain(Apply(s, SeeDone(d)), c, d);
    ReturnsAfterStep(s, SeeDone(d), c);
  }

  // A call that waits for the others to drop their references to its instance.
  lemma {:induction false} DrainingReturns(s: State, c: Call)
    requires Inv(s) && c in s.b.pc && s.b.pc[c].Draining?
    ensures CanReturn(s, c)
    decreases |Holders(s.b.pc, c)|, 2
  {
    if d :| d in Holders(s.b.pc, c) {
      HolderIsDone(s, c, d);
      if s.b.pc[d].Waiting? { SeeThenDrop(s, c, d); } else { DropThenDrain(s, c, d); }
    } else {
      NothingHeld(s, c);
      ReturnNow(s, c);
    }
  }

  lemma ReturnNow(s: State, c: Call)
    requires Enabled(s, Return(c))
    ensures CanReturn(s, c)
  {
    var t := Apply(s, Return(c));
    assert Possible(t, []) && Final(t, []) == t && t.b.pc[c] == Returned;
    ReturnsAfterStep(s, Return(c), c);
  }

  lemma NothingHeld(s: State, c: Call)
    requires Inv(s) && c in s.b.pc && s.b.pc[c].Draining? && Holders(s.b.pc, c) == {}
    ensures Enabled(s, Return(c))
  {
  }

  lemma SeenReturns(s: State, c: Call)
    requires Inv(s) && c in s.b.pc && s.b.pc[c].Seen?
    ensures CanReturn(s, c)
  {
    StepKeepsInv(s, Drop(c));
    DrainingReturns(Apply(s, Drop(c)), c);
    ReturnsAfterStep(s, Drop(c), c);
  }

  lemma MoveKeepsPc(s: State, who: Option<Call>, dest: Cpu, c: Call)
    requires c in s.b.pc && who != Some(c)
    ensures var t := AffineMove(s, who, dest); c in t.b.pc && t.b.pc[c] == s.b.pc[c]
  {
  }

  // A call only moves on: from waiting on an instance to having seen it done.
  lemma WaiterStep(s: State, e: Event, c: Call)
    requires Enabled(s, e) && c in s.b.pc && s.b.pc[c].Waiting?
    ensures c in Apply(s, e).b.pc && (Apply(s, e).b.pc[c] == s.b.pc[c] || Apply(s, e).b.pc[c] == Seen(s.b.pc[c].on))
  {
    match e
    case SetAffinity(d, newMask, dest, _, _) =>
      MoveKeepsPc(State(s.p.(mask := newMask), NewCall(s.b, d)), Some(d), dest, c);
    case EnableBegin(dest) => MoveKeepsPc(s.(p := s.p.(pin := None)), None, dest, c);
    case _ =>
  }

  // However the wait for its instance is brought to an end.
  lemma {:induction false} WaiterReturns(s: State, es: seq<Event>, c: Call)
    requires Inv(s) && Possible(s, es) && c in s.b.pc && s.b.pc[c].Waiting?
    requires Of(Final(s, es).b, s.b.pc[c].on).done
    ensures CanReturn(s, c)
    decreases |es|
  {
    if es == [] {
      StepKeepsInv(s, SeeDone(c));
      SeenReturns(Apply(s, SeeDone(c)), c);
      ReturnsAfterStep(s, SeeDone(c), c);
    } else {
      var t := Apply(s, es[0]);
      WaiterStep(s, es[0], c);
      StepKeepsInv(s, es[0]);
      if t.b.pc[c].Waiting? {
        WaiterReturns(t, es[1..], c);
      } else {
        SeenReturns(t, c);
      }
      ReturnsAfterStep(s, es[0], c);
    }
  }

  // From every reachable state every call of __set_cpus_allowed_ptr can return.
  lemma EveryCallCanReturn(init: State, es: seq<Event>, c: Call)
    requires Init(init) && Possible(init, es) && c in Final(init, es).b.pc
    ensures CanReturn(Final(init, es), c)
  {
    RunKeepsInv(init, es);
    var s := Final(init, es);
    match s.b.pc[c]
    case Waiting(i) =>
      EveryWaiterCanBeReleased(init, es, c);
      var fs :| Possible(s, fs) && Of(Final(s, fs).b, i).done;
      WaiterReturns(s, fs, c);
    case Seen(_) => SeenReturns(s, c);
    case Draining => DrainingReturns(s, c);
    case Returned => assert Possible(s, []) && Final(s, []) == s;
  }
}
