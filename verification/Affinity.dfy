// Changing a task's CPU affinity while it may be migration-disabled:
// __set_cpus_allowed_ptr, affine_move_task, migration_cpu_stop and
// migrate_disable/enable/_switch, for one target task and any number of callers.
//
// Every region protected by the task's pi_lock and run-queue lock is one event.
// What a region leaves to be done after unlocking (issuing stop work, signalling
// a completion) becomes an obligation that may be discharged at any later time,
// which allows every real interleaving and some more.
module Affinity {
  import opened Common

  // All CPUs are online and active.
  type Cpu = nat

  // One call of __set_cpus_allowed_ptr; also names the set_affinity_pending
  // instance on that call's stack.
  type Call = nat

  // struct set_affinity_pending; done stands for the completion.
  datatype Pending = Pending(refs: int, stopPending: bool, done: bool)

  const ZERO := Pending(0, false, false)

  datatype Pc =
    | Waiting(on: Call)   // in wait_for_completion
    | Seen(on: Call)      // past it, reference not yet dropped
    | Draining            // in wait_var_event on its own refs
    | Returned

  // The target as seen under its locks.
  datatype Status = Running | Queued | Blocked | Waking

  // Stop work of one instance. It is issued by stop_one_cpu_nowait, to `target`
  // or, when a stopper re-queues it, to the CPU the task is on at that time.
  datatype Stop = Stop(inst: Call, target: Option<Cpu>, queued: bool)

  datatype Target = Target(
    cpu: Cpu,                    // task_cpu(p)
    mask: set<Cpu>,              // p->cpus_mask
    pin: Option<Cpu>,            // Some: p->cpus_ptr == cpumask_of(pin), None: &p->cpus_mask
    depth: nat,                  // p->migration_disabled
    run: Status,
    enabling: bool)              // inside the outermost migrate_enable, preemption off

  // The callers, their instances and what is still to be done for them.
  datatype Book = Book(
    installed: Option<Call>,     // p->migration_pending
    inst: map<Call, Pending>,
    pc: map<Call, Pc>,
    stops: multiset<Stop>,       // stop work to be issued or queued on a CPU
    dones: multiset<Call>)       // complete_all calls still to be made

  datatype State = State(p: Target, b: Book)

  datatype Event =
    | SetAffinity(c: Call, newMask: set<Cpu>, dest: Cpu, self: bool, forbidden: bool)
    | Disable
    | EnableNested
    | EnableBegin(dest: Cpu)
    | EnableFinish
    | Preempt
    | Sleep
    | Resume
    | Wake(to: Cpu)
    | Activate
    | Balance(to: Cpu)
    | Issue(st: Stop)
    | RunStop(st: Stop, dest: Cpu)
    | CompleteAll(i: Call)
    | SeeDone(c: Call)
    | Drop(c: Call)
    | Return(c: Call)

  function Of(b: Book, i: Call): Pending {
    if i in b.inst then b.inst[i] else ZERO
  }

  // *p->cpus_ptr
  function CpusPtr(p: Target): set<Cpu> {
    if p.pin.Some? then {p.pin.value} else p.mask
  }

  // An instance is installed and nobody is running its stop work.
  predicate Unclaimed(b: Book) {
    b.installed.Some? && !Of(b, b.installed.value).stopPending
  }

  function SetStop(b: Book, i: Call, flag: bool): Book {
    b.(inst := b.inst[i := Of(b, i).(stopPending := flag)])
  }

  // p->migration_pending = NULL, with complete_all to follow.
  function Signal(b: Book, i: Call): Book {
    b.(installed := if b.installed == Some(i) then None else b.installed,
       dones := b.dones + multiset{i})
  }

  // my_pending zero-initialised; a call that need not wait returns at once.
  function NewCall(b: Book, c: Call): Book {
    b.(inst := b.inst[c := ZERO], pc := b.pc[c := Returned])
  }

  // Install the caller's own instance, or take a reference on the installed one.
  function Join(b: Book, c: Call): Book {
    var i := if b.installed.Some? then b.installed.value else c;
    var refs := if b.installed.Some? then Of(b, i).refs + 1 else 1;
    b.(installed := Some(i),
       inst := b.inst[i := Of(b, i).(refs := refs)],
       pc := b.pc[c := Waiting(i)])
  }

  // Claim the installed instance's stop work and leave it to be issued.
  function Arm(b: Book, cpu: Cpu): Book
    requires b.installed.Some?
  {
    var i := b.installed.value;
    SetStop(b, i, true).(stops := b.stops + multiset{Stop(i, Some(cpu), false)})
  }

  // The tail of affine_move_task, for a task on a CPU it should leave.
  function MoveOff(p: Target, b: Book, dest: Cpu): State {
    if b.installed.None? then State(p, b)
    else if p.run.Running? || p.run.Waking? then
      State(p, if Unclaimed(b) then Arm(b, p.cpu) else b)
    else if p.depth > 0 then State(p, b)
    else
      State(if p.run.Queued? then p.(cpu := dest) else p,
            if Unclaimed(b) then Signal(b, b.installed.value) else b)
  }

  // affine_move_task; who is None for SCA_MIGRATE_ENABLE.
  function AffineMove(s: State, who: Option<Call>, dest: Cpu): State {
    if s.p.cpu in s.p.mask then
      if Unclaimed(s.b) then s.(b := Signal(s.b, s.b.installed.value)) else s
    else
      MoveOff(s.p, if who.Some? then Join(s.b, who.value) else s.b, dest)
  }

  // __set_cpus_allowed_ptr with flags 0 or SCA_CHECK
  function SetAllowed(s: State, c: Call, newMask: set<Cpu>, dest: Cpu, self: bool, forbidden: bool): State {
    var t := s.(b := NewCall(s.b, c));
    if forbidden || s.p.mask == newMask || newMask == {} then t
    else if self && s.p.depth > 0 && s.p.cpu !in newMask then t
    else AffineMove(t.(p := s.p.(mask := newMask)), Some(c), dest)
  }

  // migrate_disable_switch, on every switch away from the task
  function SwitchOut(p: Target, to: Status): Target {
    p.(run := to, pin := if p.depth > 0 && p.pin.None? then Some(p.cpu) else p.pin)
  }

  // A stopper run that does not re-queue itself.
  function Disarm(b: Book, st: Stop, signal: bool): Book {
    var t := b.(stops := b.stops - multiset{st});
    SetStop(if signal then Signal(t, st.inst) else t, st.inst, false)
  }

  // migration_cpu_stop, run by the stopper thread of CPU `here`
  function Stopper(s: State, st: Stop, here: Cpu, dest: Cpu): State {
    if s.p.cpu == here then
      if s.p.depth > 0 then s.(b := Disarm(s.b, st, false))
      else
        var moves := s.p.cpu !in s.p.mask && s.p.run.Queued? && dest in CpusPtr(s.p);
        State(if moves then s.p.(cpu := dest) else s.p, Disarm(s.b, st, true))
    else if s.p.cpu in CpusPtr(s.p) then s.(b := Disarm(s.b, st, true))
    else s.(b := s.b.(stops := s.b.stops - multiset{st} + multiset{Stop(st.inst, None, false)}))
  }

  // complete_all
  function Complete(b: Book, i: Call): Book {
    b.(dones := b.dones - multiset{i}, inst := b.inst[i := Of(b, i).(done := true)])
  }

  // refcount_dec_and_test; from here on the caller watches its own refs only
  function DropRef(b: Book, c: Call): Book
    requires c in b.pc && b.pc[c].Seen?
  {
    var i := b.pc[c].on;
    b.(inst := b.inst[i := Of(b, i).(refs := Of(b, i).refs - 1)], pc := b.pc[c := Draining])
  }

  predicate Enabled(s: State, e: Event) {
    match e
    case SetAffinity(c, newMask, dest, self, _) =>
      c !in s.b.pc && (newMask != {} ==> dest in newMask) && (self ==> s.p.run.Running? && !s.p.enabling)
    case Disable => s.p.run.Running? && !s.p.enabling
    case EnableNested => s.p.run.Running? && !s.p.enabling && s.p.depth > 1
    case EnableBegin(dest) => s.p.run.Running? && !s.p.enabling && s.p.depth == 1 && dest in s.p.mask
    case EnableFinish => s.p.enabling
    case Preempt => s.p.run.Running? && !s.p.enabling
    case Sleep => s.p.run.Running? && !s.p.enabling
    case Resume => s.p.run.Queued?
    case Wake(to) =>
      // select_task_rq stays inside cpus_ptr; a task still being switched away
      // from may stay where it is, and if it should not, a request is pending
      s.p.run.Blocked? && (to in CpusPtr(s.p) || (to == s.p.cpu && s.b.installed.Some?))
    case Activate => s.p.run.Waking?
    case Balance(to) => s.p.run.Queued? && s.p.depth == 0 && to in CpusPtr(s.p)
    case Issue(st) => st in s.b.stops && !st.queued
    case RunStop(st, dest) =>
      // the stopper occupies its CPU and has flushed the wakeups pending there, so
      // the target is neither running nor waking there
      st in s.b.stops && st.queued && st.target.Some? && dest in s.p.mask
      && !((s.p.run.Running? || s.p.run.Waking?) && s.p.cpu == st.target.value)
    case CompleteAll(i) => i in s.b.dones
    case SeeDone(c) => c in s.b.pc && s.b.pc[c].Waiting? && Of(s.b, s.b.pc[c].on).done
    case Drop(c) => c in s.b.pc && s.b.pc[c].Seen?
    case Return(c) => c in s.b.pc && s.b.pc[c].Draining? && Of(s.b, c).refs == 0
  }

  function Apply(s: State, e: Event): State
    requires Enabled(s, e)
  {
    var p, b := s.p, s.b;
    match e
    case SetAffinity(c, newMask, dest, self, forbidden) => SetAllowed(s, c, newMask, dest, self, forbidden)
    case Disable => s.(p := p.(depth := p.depth + 1))
    case EnableNested => s.(p := p.(depth := p.depth - 1))
    case EnableBegin(dest) =>
      var t := if p.pin.Some? then AffineMove(s.(p := p.(pin := None)), None, dest) else s;
      t.(p := t.p.(enabling := true))
    case EnableFinish => s.(p := p.(enabling := false, depth := 0))
    case Preempt => s.(p := SwitchOut(p, Queued))
    case Sleep => s.(p := SwitchOut(p, Blocked))
    case Resume => s.(p := p.(run := Running))
    case Wake(to) => s.(p := p.(run := Waking, cpu := to))
    case Activate => s.(p := p.(run := Queued))
    case Balance(to) => s.(p := p.(cpu := to))
    case Issue(st) =>
      var at := if st.target.Some? then st.target else Some(p.cpu);
      s.(b := b.(stops := b.stops - multiset{st} + multiset{Stop(st.inst, at, true)}))
    case RunStop(st, dest) => Stopper(s, st, st.target.value, dest)
    case CompleteAll(i) => s.(b := Complete(b, i))
    case SeeDone(c) => s.(b := b.(pc := b.pc[c := Seen(b.pc[c].on)]))
    case Drop(c) => s.(b := DropRef(b, c))
    case Return(c) => s.(b := b.(pc := b.pc[c := Returned]))
  }

  // Instances whose contents an event reads or writes, other than the frame
  // that a new call brings with it.
  function Touched(s: State, e: Event): set<Call>
    requires Enabled(s, e)
  {
    var shared := if s.b.installed.Some? then {s.b.installed.value} else {};
    match e
    case SetAffinity(_, _, _, _, _) => shared
    case EnableBegin(_) => if s.p.pin.Some? then shared else {}
    case Issue(st) => {st.inst}
    case RunStop(st, _) => {st.inst}
    case CompleteAll(i) => {i}
    case SeeDone(c) => {s.b.pc[c].on}
    case Drop(c) => {s.b.pc[c].on}
    case Return(c) => {c}
    case _ => {}
  }

  // The stack frame holding the instance still exists.
  predicate Live(b: Book, i: Call) {
    i in b.pc && !b.pc[i].Returned?
  }

  predicate Holds(pc: Pc, i: Call) {
    pc == Waiting(i) || pc == Seen(i)
  }

  // Calls not yet past their wait on instance i.
  function Holders(pc: map<Call, Pc>, i: Call): set<Call> {
    set c | c in pc && Holds(pc[c], i)
  }

  // ---- Invariant --------------------------------------------------------

  ghost predicate TargetInv(p: Target) {
    && p.mask != {}
    && (p.pin.Some? ==> p.depth > 0 && p.pin.value == p.cpu && !p.enabling)
    && (p.depth > 0 && !p.run.Running? ==> p.pin.Some?)
    && (p.enabling ==> p.run.Running? && p.depth == 1)
  }

  // stop_pending is set exactly while one stop work is outstanding, and only
  // for the installed instance.
  ghost predicate StopInv(b: Book) {
    && (forall i :: i in b.inst && b.inst[i].stopPending ==> b.installed == Some(i))
    && (if b.installed.Some? && Of(b, b.installed.value).stopPending
        then exists st: Stop ::
               st.inst == b.installed.value && (st.queued ==> st.target.Some?) && b.stops == multiset{st}
        else b.stops == multiset{})
  }

  // An installed instance is uncompleted and its installer is waiting on it.
  ghost predicate InstalledInv(b: Book) {
    b.installed.Some? ==>
      var i := b.installed.value;
      i in b.inst && i in b.pc && b.pc[i] == Waiting(i) && !b.inst[i].done && b.dones[i] == 0
  }

  ghost predicate WaiterOk(b: Book, c: Call)
    requires c in b.pc
  {
    match b.pc[c]
    case Waiting(i) =>
      i in b.inst && i in b.pc && (b.installed == Some(i) || b.dones[i] == 1 || b.inst[i].done)
    case Seen(i) => i in b.inst && i in b.pc && b.inst[i].done
    case _ => true
  }

  ghost predicate WaitersInv(b: Book) {
    && b.pc.Keys == b.inst.Keys
    && (forall c :: c in b.pc ==> WaiterOk(b, c))
    && (forall i :: i in b.dones ==> b.dones[i] == 1 && i in b.pc && !b.inst[i].done && b.pc[i] == Waiting(i))
  }

  ghost predicate RefsInv(b: Book) {
    && (forall i :: i in b.inst ==> b.inst[i].refs == |Holders(b.pc, i)|)
    && (forall c :: c in b.pc && (b.pc[c].Waiting? || b.pc[c].Seen?) ==> Live(b, b.pc[c].on))
  }

  // What concerns callers, instances and obligations alone.
  ghost predicate BookInv(b: Book) {
    StopInv(b) && InstalledInv(b) && WaitersInv(b) && RefsInv(b)
  }

  // An installed instance without a stopper waits for the outermost
  // migrate_enable of a switched-out, migration-disabled task.
  ghost predicate Inv(s: State) {
    && TargetInv(s.p)
    && BookInv(s.b)
    && (Unclaimed(s.b) ==> s.p.depth > 0 && s.p.pin.Some?)
  }

  // ---- Preservation -----------------------------------------------------

  // Writing pc[c] moves only c in or out of the holders of an instance.
  lemma HoldersUpdate(m: map<Call, Pc>, c: Call, pc: Pc, i: Call)
    ensures |Holders(m[c := pc], i)|
         == |Holders(m, i)| - (if c in m && Holds(m[c], i) then 1 else 0) + (if Holds(pc, i) then 1 else 0)
  {
    var rest := Holders(m, i) - {c};
    assert Holders(m, i) == if c in m && Holds(m[c], i) then rest + {c} else rest;
    assert Holders(m[c := pc], i) == if Holds(pc, i) then rest + {c} else rest;
  }

  // Nobody waits on an instance that does not exist yet.
  lemma NoHolders(b: Book, c: Call)
    requires WaitersInv(b) && c !in b.pc
    ensures Holders(b.pc, c) == {}
  {
    forall d | d in b.pc ensures !Holds(b.pc[d], c) {
      assert WaiterOk(b, d);
    }
  }

  lemma NewCallRefsAt(b: Book, c: Call, i: Call)
    requires c !in b.pc && (i == c || (i in b.inst && b.inst[i].refs == |Holders(b.pc, i)|))
    requires Holders(b.pc, c) == {}
    ensures NewCall(b, c).inst[i].refs == |Holders(NewCall(b, c).pc, i)|
  {
    HoldersUpdate(b.pc, c, Returned, i);
  }

  lemma NewCallKeepsRefs(b: Book, c: Call)
    requires WaitersInv(b) && RefsInv(b) && c !in b.pc
    ensures RefsInv(NewCall(b, c))
  {
    var t := NewCall(b, c);
    NoHolders(b, c);
    forall i | i in t.inst ensures t.inst[i].refs == |Holders(t.pc, i)| {
      NewCallRefsAt(b, c, i);
    }
    forall d | d in t.pc && (t.pc[d].Waiting? || t.pc[d].Seen?) ensures Live(t, t.pc[d].on) {
      assert Live(b, b.pc[d].on);
    }
  }

  lemma NewCallKeepsBook(b: Book, c: Call)
    requires BookInv(b) && c !in b.pc
    ensures BookInv(NewCall(b, c)) && Fresh(NewCall(b, c), c) && (Unclaimed(NewCall(b, c)) <==> Unclaimed(b))
  {
    NewCallKeepsRefs(b, c);
    NewCallKeepsWaiters(b, c);
    NewCallKeepsStop(b, c);
  }

  lemma NewCallKeepsWaiters(b: Book, c: Call)
    requires WaitersInv(b) && InstalledInv(b) && c !in b.pc
    ensures WaitersInv(NewCall(b, c)) && InstalledInv(NewCall(b, c))
  {
    var t := NewCall(b, c);
    forall d | d in t.pc ensures WaiterOk(t, d) {
      assert d != c ==> WaiterOk(b, d);
    }
  }

  lemma NewCallKeepsStop(b: Book, c: Call)
    requires StopInv(b) && InstalledInv(b) && c !in b.pc
    ensures StopInv(NewCall(b, c)) && (Unclaimed(NewCall(b, c)) <==> Unclaimed(b))
  {
  }

  // A call that has just entered, with its instance zeroed.
  ghost predicate Fresh(b: Book, c: Call) {
    c in b.pc && c in b.inst && b.pc[c] == Returned && b.inst[c] == ZERO
  }

  lemma JoinRefsAt(b: Book, c: Call, k: Call)
    requires InstalledInv(b) && Fresh(b, c) && k in b.inst && b.inst[k].refs == |Holders(b.pc, k)|
    ensures k in Join(b, c).inst && Join(b, c).inst[k].refs == |Holders(Join(b, c).pc, k)|
  {
    HoldersUpdate(b.pc, c, Waiting(Join(b, c).installed.value), k);
  }

  lemma JoinKeepsRefs(b: Book, c: Call)
    requires b.pc.Keys == b.inst.Keys && InstalledInv(b) && RefsInv(b) && Fresh(b, c)
    ensures RefsInv(Join(b, c))
  {
    var t := Join(b, c);
    forall k | k in t.inst ensures t.inst[k].refs == |Holders(t.pc, k)| {
      JoinRefsAt(b, c, k);
    }
    forall d | d in t.pc && (t.pc[d].Waiting? || t.pc[d].Seen?) ensures Live(t, t.pc[d].on) {
      assert d != c ==> Live(b, b.pc[d].on);
    }
  }

  lemma JoinKeepsWaiters(b: Book, c: Call)
    requires WaitersInv(b) && InstalledInv(b) && Fresh(b, c)
    ensures WaitersInv(Join(b, c)) && InstalledInv(Join(b, c))
  {
    var t := Join(b, c);
    forall d | d in t.pc ensures WaiterOk(t, d) {
      assert d != c ==> WaiterOk(b, d);
    }
  }

  lemma JoinKeepsStop(b: Book, c: Call)
    requires StopInv(b) && Fresh(b, c)
    ensures StopInv(Join(b, c))
  {
    var t := Join(b, c);
    assert forall i :: i in t.inst && i in b.inst ==> t.inst[i].stopPending == b.inst[i].stopPending;
  }

  lemma JoinKeepsBook(b: Book, c: Call)
    requires BookInv(b) && Fresh(b, c)
    ensures BookInv(Join(b, c)) && Join(b, c).installed.Some?
  {
    JoinKeepsRefs(b, c);
    JoinKeepsWaiters(b, c);
    JoinKeepsStop(b, c);
  }

  lemma ArmKeepsBook(b: Book, cpu: Cpu)
    requires BookInv(b) && Unclaimed(b)
    ensures BookInv(Arm(b, cpu)) && !Unclaimed(Arm(b, cpu))
  {
  }

  lemma SignalKeepsBook(b: Book)
    requires BookInv(b) && Unclaimed(b)
    ensures BookInv(Signal(b, b.installed.value)) && !Unclaimed(Signal(b, b.installed.value))
  {
  }

  lemma MoveOffKeepsInv(p: Target, b: Book, dest: Cpu)
    requires TargetInv(p) && BookInv(b)
    ensures Inv(MoveOff(p, b, dest))
  {
    if Unclaimed(b) {
      ArmKeepsBook(b, p.cpu);
      SignalKeepsBook(b);
    }
  }

  lemma AffineMoveKeepsInv(s: State, who: Option<Call>, dest: Cpu)
    requires TargetInv(s.p) && BookInv(s.b)
    requires who.Some? ==> Fresh(s.b, who.value)
    ensures Inv(AffineMove(s, who, dest))
  {
    if s.p.cpu in s.p.mask {
      if Unclaimed(s.b) {
        SignalKeepsBook(s.b);
      }
    } else if who.Some? {
      JoinKeepsBook(s.b, who.value);
      MoveOffKeepsInv(s.p, Join(s.b, who.value), dest);
    } else {
      MoveOffKeepsInv(s.p, s.b, dest);
    }
  }

  lemma SetAffinityKeepsInv(s: State, c: Call, newMask: set<Cpu>, dest: Cpu, self: bool, forbidden: bool)
    requires Inv(s) && Enabled(s, SetAffinity(c, newMask, dest, self, forbidden))
    ensures Inv(SetAllowed(s, c, newMask, dest, self, forbidden))
  {
    NewCallKeepsBook(s.b, c);
    var b := NewCall(s.b, c);
    if forbidden || s.p.mask == newMask || newMask == {} || (self && s.p.depth > 0 && s.p.cpu !in newMask) {
      assert Inv(s.(b := b));
    } else {
      var p := s.p.(mask := newMask);
      assert TargetInv(p);
      AffineMoveKeepsInv(State(p, b), Some(c), dest);
    }
  }

  // The stop work at hand is the only one, and its instance is the installed one.
  lemma OnlyStop(b: Book, st: Stop)
    requires StopInv(b) && st in b.stops
    ensures b.installed == Some(st.inst) && Of(b, st.inst).stopPending && b.stops == multiset{st}
    ensures st.queued ==> st.target.Some?
  {
  }

  lemma ReissueKeepsBook(b: Book, st: Stop, next: Stop)
    requires BookInv(b) && st in b.stops && next.inst == st.inst && (next.queued ==> next.target.Some?)
    ensures var t := b.(stops := b.stops - multiset{st} + multiset{next});
      BookInv(t) && !Unclaimed(t)
  {
    OnlyStop(b, st);
    assert (b.stops - multiset{st} + multiset{next}) == multiset{next};
  }

  // Clearing stop_pending once the stop work is gone.
  lemma QuietDisarmKeepsBook(b: Book, st: Stop)
    requires BookInv(b) && st in b.stops
    ensures BookInv(Disarm(b, st, false)) && Disarm(b, st, false).installed == Some(st.inst)
  {
    OnlyStop(b, st);
    var t := Disarm(b, st, false);
    QuietDisarmKeepsStop(b, st);
    assert InstalledInv(t);
    forall d | d in t.pc ensures WaiterOk(t, d) {
      assert WaiterOk(b, d);
    }
    assert WaitersInv(t);
    assert forall c :: c in t.pc ==> (Live(t, c) <==> Live(b, c));
    assert RefsInv(t);
  }

  lemma QuietDisarmKeepsStop(b: Book, st: Stop)
    requires StopInv(b) && st in b.stops
    ensures StopInv(Disarm(b, st, false))
  {
    OnlyStop(b, st);
    assert b.stops - multiset{st} == multiset{};
  }

  lemma DisarmKeepsBook(b: Book, st: Stop, signal: bool)
    requires BookInv(b) && st in b.stops
    ensures BookInv(Disarm(b, st, signal)) && (signal ==> !Unclaimed(Disarm(b, st, signal)))
  {
    QuietDisarmKeepsBook(b, st);
    if signal {
      var t := Disarm(b, st, false);
      SignalKeepsBook(t);
      assert Disarm(b, st, true) == Signal(t, st.inst);
    }
  }

  lemma RunStopKeepsInv(s: State, st: Stop, dest: Cpu)
    requires Inv(s) && Enabled(s, RunStop(st, dest))
    ensures Inv(Apply(s, RunStop(st, dest)))
  {
    DisarmKeepsBook(s.b, st, true);
    DisarmKeepsBook(s.b, st, false);
    ReissueKeepsBook(s.b, st, Stop(st.inst, None, false));
  }

  lemma CompleteKeepsWaiters(b: Book, i: Call)
    requires WaitersInv(b) && i in b.dones
    ensures WaitersInv(Complete(b, i))
  {
    var t := Complete(b, i);
    forall d | d in t.pc ensures WaiterOk(t, d) {
      assert WaiterOk(b, d);
    }
  }

  lemma CompleteKeepsStop(b: Book, i: Call)
    requires StopInv(b) && InstalledInv(b) && i in b.inst && i in b.dones
    ensures StopInv(Complete(b, i)) && InstalledInv(Complete(b, i)) && (Unclaimed(Complete(b, i)) <==> Unclaimed(b))
  {
    var t := Complete(b, i);
    assert forall k :: k in b.inst ==> t.inst[k].stopPending == b.inst[k].stopPending;
  }

  lemma CompleteKeepsRefs(b: Book, i: Call)
    requires RefsInv(b) && i in b.inst
    ensures RefsInv(Complete(b, i))
  {
    var t := Complete(b, i);
    assert t.pc == b.pc && forall k :: k in b.inst ==> t.inst[k].refs == b.inst[k].refs;
    forall c | c in t.pc && (t.pc[c].Waiting? || t.pc[c].Seen?) ensures Live(t, t.pc[c].on) {
      assert Live(b, b.pc[c].on);
    }
  }

  lemma CompleteKeepsBook(b: Book, i: Call)
    requires BookInv(b) && i in b.dones
    ensures BookInv(Complete(b, i)) && (Unclaimed(Complete(b, i)) <==> Unclaimed(b))
  {
    CompleteKeepsWaiters(b, i);
    CompleteKeepsRefs(b, i);
    CompleteKeepsStop(b, i);
  }

  // A caller's own progress leaves everyone else's wait justified.
  lemma StepKeepsWaiters(b: Book, t: Book, c: Call, pc: Pc)
    requires WaitersInv(b) && c in b.pc && !pc.Waiting? && c !in b.dones
    requires t.pc == b.pc[c := pc] && t.installed == b.installed && t.dones == b.dones
    requires t.inst.Keys == b.inst.Keys && forall i :: i in b.inst ==> t.inst[i].done == b.inst[i].done
    requires pc.Seen? ==> pc.on in b.inst && b.inst[pc.on].done
    ensures WaitersInv(t)
  {
    forall d | d in t.pc ensures WaiterOk(t, d) {
      assert WaiterOk(b, d);
    }
  }

  lemma StepKeepsRefs(b: Book, t: Book, c: Call, pc: Pc)
    requires RefsInv(b) && b.pc.Keys == b.inst.Keys && c in b.pc && !pc.Waiting?
    requires t.pc == b.pc[c := pc] && t.inst.Keys == b.inst.Keys
    requires pc.Seen? ==> Live(b, pc.on)
    requires pc.Returned? ==> b.inst[c].refs == 0
    requires forall i :: i in b.inst ==>
      t.inst[i].refs == b.inst[i].refs - (if Holds(b.pc[c], i) then 1 else 0) + (if Holds(pc, i) then 1 else 0)
    ensures RefsInv(t)
  {
    forall i | i in t.inst ensures t.inst[i].refs == |Holders(t.pc, i)| {
      HoldersUpdate(b.pc, c, pc, i);
    }
    forall d | d in t.pc && (t.pc[d].Waiting? || t.pc[d].Seen?) ensures Live(t, t.pc[d].on) {
      assert Holds(b.pc[d], c) ==> d in Holders(b.pc, c);
    }
  }

  lemma StepKeepsInstalled(b: Book, t: Book, c: Call, pc: Pc)
    requires StopInv(b) && InstalledInv(b) && b.installed != Some(c)
    requires t.pc == b.pc[c := pc] && t.installed == b.installed && t.dones == b.dones && t.stops == b.stops
    requires t.inst.Keys == b.inst.Keys
    requires forall i :: i in b.inst ==>
      t.inst[i].done == b.inst[i].done && t.inst[i].stopPending == b.inst[i].stopPending
    ensures StopInv(t) && InstalledInv(t) && (Unclaimed(t) <==> Unclaimed(b))
  {
  }

  lemma SeeDoneKeepsRefs(b: Book, c: Call)
    requires RefsInv(b) && b.pc.Keys == b.inst.Keys && c in b.pc && b.pc[c].Waiting?
    ensures RefsInv(b.(pc := b.pc[c := Seen(b.pc[c].on)]))
  {
    var pc := Seen(b.pc[c].on);
    assert forall i :: Holds(pc, i) <==> Holds(b.pc[c], i);
    StepKeepsRefs(b, b.(pc := b.pc[c := pc]), c, pc);
  }

  lemma SeeDoneKeepsBook(b: Book, c: Call)
    requires BookInv(b) && c in b.pc && b.pc[c].Waiting? && Of(b, b.pc[c].on).done
    ensures BookInv(b.(pc := b.pc[c := Seen(b.pc[c].on)]))
  {
    var pc := Seen(b.pc[c].on);
    var t := b.(pc := b.pc[c := pc]);
    WaiterFacts(b, c);
    StepKeepsWaiters(b, t, c, pc);
    SeeDoneKeepsRefs(b, c);
    StepKeepsInstalled(b, t, c, pc);
  }

  // A caller whose instance is done is neither an installer nor about to be signalled.
  lemma WaiterFacts(b: Book, c: Call)
    requires InstalledInv(b) && WaitersInv(b) && RefsInv(b) && c in b.pc && (b.pc[c].Waiting? || b.pc[c].Seen?)
    requires Of(b, b.pc[c].on).done || b.pc[c].Seen?
    ensures b.installed != Some(c) && c !in b.dones && Live(b, b.pc[c].on)
    ensures b.pc[c].on in b.inst && b.inst[b.pc[c].on].done
  {
    assert WaiterOk(b, c);
  }

  lemma DropFacts(b: Book, c: Call)
    requires c in b.pc && b.pc[c].Seen? && b.pc[c].on in b.inst
    ensures var t := DropRef(b, c);
      && t.inst.Keys == b.inst.Keys
      && (forall i :: i in b.inst ==>
            && t.inst[i].done == b.inst[i].done && t.inst[i].stopPending == b.inst[i].stopPending
            && t.inst[i].refs == b.inst[i].refs - (if Holds(b.pc[c], i) then 1 else 0))
  {
  }

  lemma DropKeepsBook(b: Book, c: Call)
    requires BookInv(b) && c in b.pc && b.pc[c].Seen?
    ensures BookInv(DropRef(b, c)) && (Unclaimed(DropRef(b, c)) <==> Unclaimed(b))
  {
    var t := DropRef(b, c);
    WaiterFacts(b, c);
    DropFacts(b, c);
    StepKeepsWaiters(b, t, c, Draining);
    StepKeepsRefs(b, t, c, Draining);
    StepKeepsInstalled(b, t, c, Draining);
  }

  lemma ReturnKeepsBook(b: Book, c: Call)
    requires BookInv(b) && c in b.pc && b.pc[c].Draining? && Of(b, c).refs == 0
    ensures BookInv(b.(pc := b.pc[c := Returned]))
  {
    var t := b.(pc := b.pc[c := Returned]);
    StepKeepsWaiters(b, t, c, Returned);
    StepKeepsRefs(b, t, c, Returned);
    StepKeepsInstalled(b, t, c, Returned);
  }

  lemma EnableBeginKeepsInv(s: State, dest: Cpu)
    requires Inv(s) && Enabled(s, EnableBegin(dest))
    ensures Inv(Apply(s, EnableBegin(dest)))
  {
    if s.p.pin.Some? {
      AffineMoveKeepsInv(s.(p := s.p.(pin := None)), None, dest);
    }
  }

  lemma StepKeepsInv(s: State, e: Event)
    requires Inv(s) && Enabled(s, e)
    ensures Inv(Apply(s, e))
  {
    match e
    case SetAffinity(c, newMask, dest, self, forbidden) => SetAffinityKeepsInv(s, c, newMask, dest, self, forbidden);
    case EnableBegin(dest) => EnableBeginKeepsInv(s, dest);
    case Issue(st) =>
      ReissueKeepsBook(s.b, st, Stop(st.inst, if st.target.Some? then st.target else Some(s.p.cpu), true));
    case RunStop(st, dest) => RunStopKeepsInv(s, st, dest);
    case CompleteAll(i) => CompleteKeepsBook(s.b, i);
    case SeeDone(c) => SeeDoneKeepsBook(s.b, c);
    case Drop(c) => DropKeepsBook(s.b, c);
    case Return(c) => ReturnKeepsBook(s.b, c);
    case _ =>
  }

  // ---- Runs -------------------------------------------------------------

  ghost predicate Init(s: State) {
    && s.p.mask != {} && s.p.pin.None? && s.p.depth == 0 && !s.p.enabling
    && s.b == Book(None, map[], map[], multiset{}, multiset{})
  }

  ghost predicate Possible(s: State, es: seq<Event>)
    decreases |es|
  {
    es == [] || (Enabled(s, es[0]) && Possible(Apply(s, es[0]), es[1..]))
  }

  ghost function Final(s: State, es: seq<Event>): State
    requires Possible(s, es)
    decreases |es|
  {
    if es == [] then s else Final(Apply(s, es[0]), es[1..])
  }

  lemma {:induction false} RunKeepsInv(s: State, es: seq<Event>)
    requires Inv(s) && Possible(s, es)
    ensures Inv(Final(s, es))
    decreases |es|
  {
    if es != [] {
      StepKeepsInv(s, es[0]);
      RunKeepsInv(Apply(s, es[0]), es[1..]);
    }
  }

  // ---- No stranded waiter -----------------------------------------------

  // In every interleaving, whoever waits for an uncompleted instance has either
  // exactly one stopper outstanding for it, or one completion about to be
  // signalled, or the instance is installed on a switched-out task inside a
  // migrate-disable region.
  lemma NoStrandedWaiter(init: State, es: seq<Event>, c: Call)
    requires Init(init) && Possible(init, es)
    ensures var s := Final(init, es);
      c in s.b.pc && s.b.pc[c].Waiting? && !Of(s.b, s.b.pc[c].on).done ==>
        var i := s.b.pc[c].on;
        || (s.b.installed == Some(i) && exists st: Stop :: st.inst == i && s.b.stops == multiset{st})
        || (s.b.installed != Some(i) && s.b.dones[i] == 1)
        || (s.b.installed == Some(i) && s.b.stops == multiset{} && s.p.depth > 0 && s.p.pin == Some(s.p.cpu))
  {
    RunKeepsInv(init, es);
    var s := Final(init, es);
    if c in s.b.pc {
      assert WaiterOk(s.b, c);
    }
  }

  // stop_pending is true exactly while one stop work is outstanding for the
  // instance, it is uninstalled before it is completed and completed at most
  // once, and refs counts the calls not past their wait.
  ghost predicate Accounted(b: Book, i: Call)
    requires i in b.inst
  {
    && (b.inst[i].stopPending <==> exists st: Stop :: st in b.stops && st.inst == i)
    && (forall st: Stop :: st in b.stops && st.inst == i ==> b.stops == multiset{st})
    && b.dones[i] <= 1
    && (b.dones[i] == 1 || b.inst[i].done ==> b.installed != Some(i) && !b.inst[i].stopPending)
    && (b.dones[i] == 1 ==> !b.inst[i].done)
    && b.inst[i].refs == |Holders(b.pc, i)|
  }

  lemma BookInvAccounts(b: Book, i: Call)
    requires BookInv(b) && i in b.inst
    ensures Accounted(b, i)
  {
    assert b.inst[i].stopPending ==> exists st: Stop :: st in b.stops && st.inst == i by {
      if b.inst[i].stopPending {
        var st: Stop :| st.inst == i && b.stops == multiset{st};
        assert st in b.stops;
      }
    }
    forall st: Stop | st in b.stops ensures b.stops == multiset{st} && Of(b, st.inst).stopPending {
      OnlyStop(b, st);
    }
    assert i in b.dones <==> b.dones[i] > 0;
  }

  lemma PendingLifetime(init: State, es: seq<Event>, i: Call)
    requires Init(init) && Possible(init, es)
    ensures i in Final(init, es).b.inst ==> Accounted(Final(init, es).b, i)
  {
    RunKeepsInv(init, es);
    if i in Final(init, es).b.inst {
      BookInvAccounts(Final(init, es).b, i);
    }
  }

  // No event reads or writes an instance whose installer has returned, and the
  // final WARN_ON_ONCE of affine_move_task never fires.
  lemma NoUseAfterReturn(init: State, es: seq<Event>, e: Event)
    requires Init(init) && Possible(init, es) && Enabled(Final(init, es), e)
    ensures forall k :: k in Touched(Final(init, es), e) ==> Live(Final(init, es).b, k)
    ensures e.Return? ==> !Of(Final(init, es).b, e.c).stopPending
  {
    RunKeepsInv(init, es);
    forall k | k in Touched(Final(init, es), e) ensures Live(Final(init, es).b, k) {
      TouchedIsLive(Final(init, es), e, k);
    }
  }

  lemma TouchedIsLive(s: State, e: Event, k: Call)
    requires Inv(s) && Enabled(s, e) && k in Touched(s, e)
    ensures Live(s.b, k)
  {
    match e
    case Issue(st) => OnlyStop(s.b, st);
    case RunStop(st, _) => OnlyStop(s.b, st);
    case _ =>
  }

  // Touched is what it says: an event leaves every other instance as it is ...
  lemma UntouchedIsUnchanged(s: State, e: Event, k: Call)
    requires StopInv(s.b) && Enabled(s, e) && k in s.b.inst && k in s.b.pc && k !in Touched(s, e)
    ensures k in Apply(s, e).b.inst && Apply(s, e).b.inst[k] == s.b.inst[k]
  {
    match e
    case SetAffinity(c, newMask, dest, self, forbidden) =>
      var p := s.p.(mask := newMask);
      MoveUntouched(State(p, NewCall(s.b, c)), Some(c), dest, k);
    case EnableBegin(dest) =>
      if s.p.pin.Some? { MoveUntouched(s.(p := s.p.(pin := None)), None, dest, k); }
    case RunStop(st, _) => OnlyStop(s.b, st);
    case _ =>
  }

  lemma MoveOffUntouched(p: Target, b: Book, dest: Cpu, k: Call)
    requires k in b.inst && b.installed != Some(k)
    ensures var t := MoveOff(p, b, dest); k in t.b.inst && t.b.inst[k] == b.inst[k]
  {
  }

  lemma MoveUntouched(s: State, who: Option<Call>, dest: Cpu, k: Call)
    requires k in s.b.inst && s.b.installed != Some(k) && who != Some(k)
    ensures var t := AffineMove(s, who, dest); k in t.b.inst && t.b.inst[k] == s.b.inst[k]
  {
    MoveOffUntouched(s.p, if who.Some? then Join(s.b, who.value) else s.b, dest, k);
  }

  function Scribble(s: State, k: Call, v: Pending): State {
    s.(b := s.b.(inst := s.b.inst[k := v]))
  }

  lemma MoveIgnores(s: State, who: Option<Call>, dest: Cpu, k: Call, v: Pending)
    requires k in s.b.inst && s.b.installed != Some(k) && who != Some(k)
    ensures AffineMove(Scribble(s, k, v), who, dest) == Scribble(AffineMove(s, who, dest), k, v)
  {
    var t := Scribble(s, k, v);
    if who.Some? {
      assert Join(t.b, who.value) == Scribble(State(s.p, Join(s.b, who.value)), k, v).b;
      MoveOffIgnores(s.p, Join(s.b, who.value), dest, k, v);
    } else {
      MoveOffIgnores(s.p, s.b, dest, k, v);
    }
  }

  lemma MoveOffIgnores(p: Target, b: Book, dest: Cpu, k: Call, v: Pending)
    requires k in b.inst && b.installed != Some(k)
    ensures MoveOff(p, b.(inst := b.inst[k := v]), dest) == Scribble(MoveOff(p, b, dest), k, v)
  {
    if Unclaimed(b) {
      assert Arm(b.(inst := b.inst[k := v]), p.cpu).inst == Arm(b, p.cpu).inst[k := v];
    }
  }

  // ... and neither whether it may happen nor what it does depends on one.
  lemma UntouchedIsIrrelevant(s: State, e: Event, k: Call, v: Pending)
    requires StopInv(s.b) && Enabled(s, e) && k in s.b.inst && k in s.b.pc && k !in Touched(s, e)
    ensures Enabled(Scribble(s, k, v), e) && Apply(Scribble(s, k, v), e) == Scribble(Apply(s, e), k, v)
  {
    var t := Scribble(s, k, v);
    match e
    case SetAffinity(c, newMask, dest, self, forbidden) =>
      var p := s.p.(mask := newMask);
      assert NewCall(t.b, c) == Scribble(State(p, NewCall(s.b, c)), k, v).b;
      MoveIgnores(State(p, NewCall(s.b, c)), Some(c), dest, k, v);
    case EnableBegin(dest) =>
      if s.p.pin.Some? { MoveIgnores(s.(p := s.p.(pin := None)), None, dest, k, v); }
    case RunStop(st, dest) => RunStopIgnores(s, st, dest, k, v);
    case CompleteAll(i) => assert t.b.inst[i := Of(t.b, i).(done := true)] == Complete(s.b, i).inst[k := v];
    case Drop(c) => assert DropRef(t.b, c).inst == DropRef(s.b, c).inst[k := v];
    case _ =>
  }

  lemma Commute(m: map<Call, Pending>, i: Call, x: Pending, k: Call, v: Pending)
    requires i != k
    ensures m[k := v][i := x] == m[i := x][k := v]
  {
  }

  lemma DisarmIgnores(b: Book, st: Stop, signal: bool, k: Call, v: Pending)
    requires k in b.inst && k != st.inst
    ensures var t := Disarm(b, st, signal);
      Disarm(b.(inst := b.inst[k := v]), st, signal) == t.(inst := t.inst[k := v])
  {
    Commute(b.inst, st.inst, Of(b, st.inst).(stopPending := false), k, v);
  }

  lemma RunStopIgnores(s: State, st: Stop, dest: Cpu, k: Call, v: Pending)
    requires Enabled(s, RunStop(st, dest)) && k in s.b.inst && k != st.inst
    ensures Apply(Scribble(s, k, v), RunStop(st, dest)) == Scribble(Apply(s, RunStop(st, dest)), k, v)
  {
    DisarmIgnores(s.b, st, false, k, v);
    DisarmIgnores(s.b, st, true, k, v);
  }

  // ---- Every waiter can be released -------------------------------------

  ghost predicate CanComplete(s: State, i: Call) {
    exists es :: Possible(s, es) && Of(Final(s, es).b, i).done
  }

  lemma Before(s: State, e: Event, i: Call)
    requires Enabled(s, e) && CanComplete(Apply(s, e), i)
    ensures CanComplete(s, i)
  {
    var es :| Possible(Apply(s, e), es) && Of(Final(Apply(s, e), es).b, i).done;
    var fs := [e] + es;
    assert fs[1..] == es;
    assert Possible(s, fs) && Final(s, fs) == Final(Apply(s, e), es);
  }

  lemma SignalledCompletes(s: State, i: Call)
    requires i in s.b.dones
    ensures CanComplete(s, i)
  {
    var t := Apply(s, CompleteAll(i));
    assert Possible(t, []) && Final(t, []) == t;
    Before(s, CompleteAll(i), i);
  }

  // Stop work queued where the task is, outside migrate-disable: the task gives
  // way to the stopper, or is first put on the run queue.
  lemma LocalStopCompletes(s: State, st: Stop)
    requires Inv(s) && st in s.b.stops && st.queued && st.target == Some(s.p.cpu) && s.p.depth == 0
    ensures CanComplete(s, st.inst)
  {
    if s.p.run.Running? || s.p.run.Waking? {
      var e := if s.p.run.Running? then Preempt else Activate;
      LocalStopRuns(Apply(s, e), st);
      Before(s, e, st.inst);
    } else {
      LocalStopRuns(s, st);
    }
  }

  lemma LocalStopRuns(s: State, st: Stop)
    requires s.p.mask != {} && st in s.b.stops && st.queued && st.target == Some(s.p.cpu) && s.p.depth == 0
    requires s.p.run.Queued? || s.p.run.Blocked?
    ensures CanComplete(s, st.inst)
  {
    var dest :| dest in s.p.mask;
    SignalledCompletes(Apply(s, RunStop(st, dest)), st.inst);
    Before(s, RunStop(st, dest), st.inst);
  }

  // Stop work at any stage, outside migrate-disable.
  lemma StopCompletes(s: State, st: Stop)
    requires Inv(s) && st in s.b.stops && s.p.depth == 0
    ensures CanComplete(s, st.inst)
  {
    if !st.queued {
      var t := Apply(s, Issue(st));
      StepKeepsInv(s, Issue(st));
      QueuedStopCompletes(t, Stop(st.inst, if st.target.Some? then st.target else Some(s.p.cpu), true));
      Before(s, Issue(st), st.inst);
    } else {
      QueuedStopCompletes(s, st);
    }
  }

  // A stopper that finds the task elsewhere completes or chases it once.
  lemma QueuedStopCompletes(s: State, st: Stop)
    requires Inv(s) && st in s.b.stops && st.queued && s.p.depth == 0
    ensures CanComplete(s, st.inst)
  {
    OnlyStop(s.b, st);
    if st.target == Some(s.p.cpu) {
      LocalStopCompletes(s, st);
    } else {
      var dest :| dest in s.p.mask;
      var t := Apply(s, RunStop(st, dest));
      if s.p.cpu in CpusPtr(s.p) {
        SignalledCompletes(t, st.inst);
      } else {
        StepKeepsInv(s, RunStop(st, dest));
        var again := Stop(st.inst, None, false);
        var u := Apply(t, Issue(again));
        StepKeepsInv(t, Issue(again));
        LocalStopCompletes(u, Stop(st.inst, Some(s.p.cpu), true));
        Before(t, Issue(again), st.inst);
      }
      Before(s, RunStop(st, dest), st.inst);
    }
  }

  // An installed instance outside migrate-disable: what is outstanding completes.
  lemma ArmedCompletes(s: State, i: Call)
    requires Inv(s) && s.b.installed == Some(i) && s.p.depth == 0
    ensures CanComplete(s, i)
  {
    var st: Stop :| st.inst == i && s.b.stops == multiset{st};
    assert st in s.b.stops;
    StopCompletes(s, st);
  }

  // The outermost migrate_enable.
  lemma OutermostCompletes(s: State, i: Call)
    requires Inv(s) && s.b.installed == Some(i) && s.p.run.Running? && s.p.depth == 1 && !s.p.enabling
    ensures CanComplete(s, i)
  {
    var dest :| dest in s.p.mask;
    StepKeepsInv(s, EnableBegin(dest));
    var t := Apply(s, EnableBegin(dest));
    if t.b.installed == Some(i) {
      EnablingCompletes(t, i);
    } else {
      SignalledCompletes(t, i);
    }
    Before(s, EnableBegin(dest), i);
  }

  lemma EnablingCompletes(s: State, i: Call)
    requires Inv(s) && s.b.installed == Some(i) && s.p.enabling
    ensures CanComplete(s, i)
  {
    StepKeepsInv(s, EnableFinish);
    ArmedCompletes(Apply(s, EnableFinish), i);
    Before(s, EnableFinish, i);
  }

  // An installed instance while the task runs: the task leaves its
  // migrate-disable region, and what is then outstanding completes.
  lemma RunningCompletes(s: State, i: Call)
    requires Inv(s) && s.b.installed == Some(i) && s.p.run.Running?
    ensures CanComplete(s, i)
    decreases s.p.depth
  {
    if s.p.enabling {
      EnablingCompletes(s, i);
    } else if s.p.depth > 1 {
      StepKeepsInv(s, EnableNested);
      RunningCompletes(Apply(s, EnableNested), i);
      Before(s, EnableNested, i);
    } else if s.p.depth == 1 {
      OutermostCompletes(s, i);
    } else {
      ArmedCompletes(s, i);
    }
  }

  lemma InstalledCompletes(s: State, i: Call)
    requires Inv(s) && s.b.installed == Some(i)
    ensures CanComplete(s, i)
    decreases match s.p.run case Blocked => 3 case Waking => 2 case Queued => 1 case Running => 0
  {
    if s.p.run.Running? {
      RunningCompletes(s, i);
    } else {
      var e := if s.p.run.Blocked? then Wake(s.p.cpu) else if s.p.run.Waking? then Activate else Resume;
      StepKeepsInv(s, e);
      InstalledCompletes(Apply(s, e), i);
      Before(s, e, i);
    }
  }

  // From every reachable state every waiting call can still be released.
  lemma EveryWaiterCanBeReleased(init: State, es: seq<Event>, c: Call)
    requires Init(init) && Possible(init, es)
    ensures var s := Final(init, es);
      c in s.b.pc && s.b.pc[c].Waiting? ==> CanComplete(s, s.b.pc[c].on)
  {
    RunKeepsInv(init, es);
    var s := Final(init, es);
    if c in s.b.pc && s.b.pc[c].Waiting? {
      var i := s.b.pc[c].on;
      assert WaiterOk(s.b, c);
      if s.b.installed == Some(i) {
        InstalledCompletes(s, i);
      } else if s.b.dones[i] == 1 {
        SignalledCompletes(s, i);
      } else {
        assert Possible(s, []) && Final(s, []) == s;
      }
    }
  }

  // ---- Released with the request unmet -----------------------------------

  // The task is where it may not be, and no affinity change is pending.
  predicate Astray(s: State) {
    s.p.cpu !in s.p.mask && s.b.installed.None?
  }

  // WARN_ON_ONCE(!pending) in affine_move_task, on behalf of migrate_enable
  predicate Warns(s: State, e: Event) {
    e.EnableBegin? && s.p.pin.Some? && Astray(s)
  }

  // The chase branch of the stopper finds the task pinned outside its mask:
  // it tests cpus_ptr and is content.
  predicate ContentOutsideMask(s: State, e: Event) {
    e.RunStop? && e.st.target != Some(s.p.cpu) && s.p.pin.Some? && s.p.cpu !in s.p.mask
  }

  // With no affinity change pending the task is on an allowed CPU, or asleep
  // outside migrate-disable, where its next wakeup selects one.
  predicate Home(s: State) {
    s.b.installed.None? ==> s.p.cpu in s.p.mask || (s.p.run.Blocked? && s.p.depth == 0)
  }

  lemma MoveComesHome(s: State, who: Option<Call>, dest: Cpu)
    requires dest in s.p.mask && (who.Some? || Home(s))
    ensures Home(AffineMove(s, who, dest))
  {
    if s.p.cpu !in s.p.mask {
      var b := if who.Some? then Join(s.b, who.value) else s.b;
      assert b.installed.None? ==> MoveOff(s.p, b, dest) == State(s.p, b);
    }
  }

  lemma RequestComesHome(s: State, e: Event)
    requires Enabled(s, e) && e.SetAffinity? && Home(s)
    ensures Home(Apply(s, e))
  {
    if e.newMask != {} {
      MoveComesHome(State(s.p.(mask := e.newMask), NewCall(s.b, e.c)), Some(e.c), e.dest);
    }
  }

  lemma StopperComesHomeIff(s: State, e: Event)
    requires TargetInv(s.p) && StopInv(s.b) && Enabled(s, e) && e.RunStop?
    ensures Home(Apply(s, e)) <==> !ContentOutsideMask(s, e)
  {
    OnlyStop(s.b, e.st);
  }

  // The chase branch is the only way out of Home.
  lemma HomeKeptIff(s: State, e: Event)
    requires Inv(s) && Enabled(s, e) && Home(s)
    ensures Home(Apply(s, e)) <==> !ContentOutsideMask(s, e)
  {
    match e
    case SetAffinity(_, _, _, _, _) => RequestComesHome(s, e);
    case EnableBegin(dest) =>
      if s.p.pin.Some? { MoveComesHome(s.(p := s.p.(pin := None)), None, dest); }
    case RunStop(_, _) => StopperComesHomeIff(s, e);
    case _ =>
  }

  // In particular, an event that uninstalls the pending instance leaves its
  // request met unless it is exactly that.
  lemma ReleaseMeetsRequestIff(s: State, e: Event)
    requires Inv(s) && Enabled(s, e) && s.b.installed.Some? && Apply(s, e).b.installed.None?
    ensures var p := Apply(s, e).p;
      p.cpu in p.mask || (p.run.Blocked? && p.depth == 0) <==> !ContentOutsideMask(s, e)
  {
    HomeKeptIff(s, e);
  }

  // And the state in which the next outermost migrate_enable warns arises
  // exactly there.
  lemma WarnArisesIff(s: State, e: Event)
    requires Inv(s) && Enabled(s, e) && Home(s)
    ensures Apply(s, e).p.pin.Some? && Astray(Apply(s, e)) <==> ContentOutsideMask(s, e)
  {
    HomeKeptIff(s, e);
    StepKeepsInv(s, e);
    if e.RunStop? {
      OnlyStop(s.b, e.st);
    }
  }

  // No event of a run is that branch.
  ghost predicate NeverContent(s: State, es: seq<Event>)
    requires Possible(s, es)
    decreases |es|
  {
    es == [] || (!ContentOutsideMask(s, es[0]) && NeverContent(Apply(s, es[0]), es[1..]))
  }

  lemma {:induction false} RunStaysHome(s: State, es: seq<Event>)
    requires Inv(s) && Home(s) && Possible(s, es) && NeverContent(s, es)
    ensures Home(Final(s, es))
    decreases |es|
  {
    if es != [] {
      StepKeepsInv(s, es[0]);
      HomeKeptIff(s, es[0]);
      RunStaysHome(Apply(s, es[0]), es[1..]);
    }
  }

  // In every run from an allowed CPU without that branch, a task that is not
  // blocked and has no affinity change pending is inside its mask, and the
  // warning never fires.
  lemma NeverAstray(init: State, es: seq<Event>, e: Event)
    requires Init(init) && init.p.cpu in init.p.mask && Possible(init, es) && NeverContent(init, es)
    ensures var s := Final(init, es);
      && (!s.p.run.Blocked? && s.b.installed.None? ==> s.p.cpu in s.p.mask)
      && (Enabled(s, e) ==> !Warns(s, e))
  {
    RunKeepsInv(init, es);
    RunStaysHome(init, es);
  }

  ghost predicate Reaches(s: State, t: State) {
    exists es :: Possible(s, es) && Final(s, es) == t
  }

  lemma {:induction false} RunExtends(s: State, es: seq<Event>, e: Event)
    requires Possible(s, es) && Enabled(Final(s, es), e)
    ensures Possible(s, es + [e]) && Final(s, es + [e]) == Apply(Final(s, es), e)
    decreases |es|
  {
    if es == [] {
      assert es + [e] == [e] && Possible(Apply(s, e), []);
    } else {
      assert (es + [e])[1..] == es[1..] + [e];
      RunExtends(Apply(s, es[0]), es[1..], e);
    }
  }

  lemma Reach(s: State, t: State, e: Event)
    requires Reaches(s, t) && Enabled(t, e)
    ensures Reaches(s, Apply(t, e))
  {
    var es :| Possible(s, es) && Final(s, es) == t;
    RunExtends(s, es, e);
  }

  const START := State(Target(0, {0, 1}, None, 0, Running, false), Book(None, map[], map[], multiset{}, multiset{}))

  // One caller waits for its instance 0, whose stop work is queued on CPU 0.
  const ONE_WAITS := Book(Some(0), map[0 := Pending(1, true, false)], map[0 := Waiting(0)],
                          multiset{Stop(0, Some(0), true)}, multiset{})

  // Two callers wait for it.
  const TWO_WAIT := Book(Some(0), map[0 := Pending(2, true, false), 1 := ZERO], map[0 := Waiting(0), 1 := Waiting(0)],
                         multiset{Stop(0, Some(0), true)}, multiset{})

  // The instance is uninstalled and about to be completed.
  const SIGNALLED := Book(None, map[0 := Pending(2, false, false), 1 := ZERO], map[0 := Waiting(0), 1 := Waiting(0)],
                          multiset{}, multiset{0})

  // The first caller confines the running task to CPU 1.
  lemma FirstRequest()
    ensures Init(START) && Reaches(START, State(Target(0, {1}, None, 0, Running, false), ONE_WAITS))
  {
    assert Possible(START, []) && Final(START, []) == START;
    var st := Stop(0, Some(0), false);
    Reach(START, START, SetAffinity(0, {1}, 1, false, false));
    var b := ONE_WAITS.(stops := multiset{st});
    assert Apply(START, SetAffinity(0, {1}, 1, false, false)).b == b;
    assert multiset{st} - multiset{st} + multiset{Stop(0, Some(0), true)} == multiset{Stop(0, Some(0), true)};
    Reach(START, State(Target(0, {1}, None, 0, Running, false), b), Issue(st));
  }

  // It moves to CPU 1 by itself and disables migration there.
  lemma MovesAndDisables()
    ensures Reaches(START, State(Target(1, {1}, None, 1, Running, false), ONE_WAITS))
  {
    FirstRequest();
    Reach(START, State(Target(0, {1}, None, 0, Running, false), ONE_WAITS), Preempt);
    Reach(START, State(Target(0, {1}, None, 0, Queued, false), ONE_WAITS), Balance(1));
    Reach(START, State(Target(1, {1}, None, 0, Queued, false), ONE_WAITS), Resume);
    Reach(START, State(Target(1, {1}, None, 0, Running, false), ONE_WAITS), Disable);
  }

  lemma SecondWaits()
    ensures Join(NewCall(ONE_WAITS, 1), 1) == TWO_WAIT && !Unclaimed(TWO_WAIT)
  {
  }

  // The second caller confines it to CPU 0.
  lemma SecondJoins()
    ensures Reaches(START, State(Target(1, {0}, None, 1, Running, false), TWO_WAIT))
  {
    MovesAndDisables();
    SecondWaits();
    var s := State(Target(1, {1}, None, 1, Running, false), ONE_WAITS);
    Reach(START, s, SetAffinity(1, {0}, 0, false, false));
  }

  // It is switched out and pinned.
  lemma SecondRequest()
    ensures Reaches(START, State(Target(1, {0}, Some(1), 1, Queued, false), TWO_WAIT))
  {
    SecondJoins();
    Reach(START, State(Target(1, {0}, None, 1, Running, false), TWO_WAIT), Preempt);
  }

  // The stopper of the first request then completes the instance both wait for,
  // and the task's migrate_enable finds no pending instance.
  lemma WarnCanFire()
    ensures exists init, s, e ::
      Init(init) && init.p.cpu in init.p.mask && Reaches(init, s) && Enabled(s, e) && Warns(s, e)
    ensures Reaches(START, State(Target(1, {0}, Some(1), 1, Running, false), SIGNALLED))
  {
    SecondRequest();
    var s := State(Target(1, {0}, Some(1), 1, Queued, false), TWO_WAIT);
    var st := Stop(0, Some(0), true);
    assert multiset{st} - multiset{st} == multiset{};
    Reach(START, s, RunStop(st, 0));
    assert Apply(s, RunStop(st, 0)).b == SIGNALLED;
    Reach(START, State(s.p, SIGNALLED), Resume);
    var t := State(Target(1, {0}, Some(1), 1, Running, false), SIGNALLED);
    FirstRequest();
    assert Enabled(t, EnableBegin(0)) && Warns(t, EnableBegin(0));
  }

  // The second caller returns while the task runs outside its mask, migration
  // enabled and nothing left to be done about it.
  lemma ReturnsUnmet()
    ensures exists init, s, c: Call ::
      && Init(init) && init.p.cpu in init.p.mask && Reaches(init, s) && c in s.b.pc && s.b.pc[c] == Returned
      && Astray(s) && s.p.run.Running? && s.p.depth == 0 && s.b.stops == multiset{} && s.b.dones == multiset{}
  {
    WarnCanFire();
    FirstRequest();
    Reach(START, State(Target(1, {0}, Some(1), 1, Running, false), SIGNALLED), EnableBegin(0));
    Reach(START, State(Target(1, {0}, None, 1, Running, true), SIGNALLED), EnableFinish);
    var p := Target(1, {0}, None, 0, Running, false);
    SecondCallReturns(p);
  }

  lemma SecondCallReturns(p: Target)
    requires Reaches(START, State(p, SIGNALLED))
    ensures exists b :: Reaches(START, State(p, b)) && 1 in b.pc && b.pc[1] == Returned
              && b.installed.None? && b.stops == multiset{} && b.dones == multiset{}
  {
    Reach(START, State(p, SIGNALLED), CompleteAll(0));
    var b1 := Complete(SIGNALLED, 0);
    Reach(START, State(p, b1), SeeDone(1));
    var b2 := b1.(pc := b1.pc[1 := Seen(0)]);
    Reach(START, State(p, b2), Drop(1));
    var b3 := DropRef(b2, 1);
    Reach(START, State(p, b3), Return(1));
    assert Reaches(START, State(p, b3.(pc := b3.pc[1 := Returned])));
  }
}
