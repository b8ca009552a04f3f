// FIFO with queue_push, and Second-Chance with queue_pagebit_change and
// pagebit_change. Both keep the frames in a ring addressed by a hand.
module Clock {
  import opened Common
  import opened Paging

  // ---- FIFO ---------------------------------------------------------------

  datatype Fifo = Fifo(queue: Row, hand: nat, faults: nat)

  ghost predicate FifoOk(s: Fifo, k: nat) {
    && k >= 1 && |s.queue| == k && s.hand == s.faults % k
    && Filled(s.queue, Min(s.faults, k))
  }

  function FifoStep(s: Fifo, r: Page): Fifo
    requires s.hand < |s.queue|
  {
    if r in s.queue then s
    else Fifo(s.queue[s.hand := r], (s.hand + 1) % |s.queue|, s.faults + 1)
  }

  // After the first n references.
  ghost function FifoRun(refs: seq<Page>, k: nat, n: nat): (s: Fifo)
    requires k >= 1 && n <= |refs|
    ensures |s.queue| == k && s.hand < k
    decreases n, 0
  {
    if n == 0 then Fifo(Empty(k), 0, 0) else FifoAfter(refs, k, n - 1)
  }

  ghost function FifoAfter(refs: seq<Page>, k: nat, n: nat): (s: Fifo)
    requires k >= 1 && n < |refs|
    ensures |s.queue| == k && s.hand < k
    decreases n, 1
  {
    FifoStep(FifoRun(refs, k, n), refs[n])
  }

  lemma FifoNext(refs: seq<Page>, k: nat, n: nat)
    requires k >= 1 && n < |refs|
    ensures FifoRun(refs, k, n + 1) == FifoStep(FifoRun(refs, k, n), refs[n])
  {
  }

  lemma {:induction false} FifoRunOk(refs: seq<Page>, k: nat, n: nat)
    requires k >= 1 && n <= |refs|
    ensures FifoOk(FifoRun(refs, k, n), k)
  {
    if n > 0 {
      FifoRunOk(refs, k, n - 1);
      FifoStepOk(FifoRun(refs, k, n - 1), k, refs[n - 1]);
    }
  }

  lemma FifoStepOk(s: Fifo, k: nat, r: Page)
    requires FifoOk(s, k)
    ensures FifoOk(FifoStep(s, r), k) && r in FifoStep(s, r).queue
    ensures Serves(k, Residents(s.queue), r, Residents(FifoStep(s, r).queue))
  {
    if r in s.queue {
      FilledSize(s.queue, Min(s.faults, k));
    } else {
      NextHand(s.faults, k);
      if s.faults < k {
        Quotient(s.faults, k, 0, s.faults);
      }
      LoadServes(s.queue, s.faults, s.hand, r);
    }
  }

  lemma NextHand(h: nat, k: nat)
    requires k >= 1
    ensures (h % k + 1) % k == (h + 1) % k
  {
    NextSlot(h, k, h / k, h % k);
    NextSlot(h % k, k, 0, h % k);
  }

  lemma NextSlot(h: nat, k: nat, q: nat, r: nat)
    requires r < k && h == k * q + r
    ensures (h + 1) % k == if r + 1 < k then r + 1 else 0
  {
    if r + 1 < k {
      Quotient(h + 1, k, q, r + 1);
    } else {
      assert k * (q + 1) == k * q + k;
      Quotient(h + 1, k, q + 1, 0);
    }
  }

  // Euclidean division is unique.
  lemma Quotient(h: int, k: nat, q: int, r: nat)
    requires r < k && h == k * q + r
    ensures h % k == r
  {
    var d := h / k - q;
    assert k * d == r - h % k;
    assert d >= 1 ==> k * d >= k;
    assert d <= -1 ==> k * d <= 0 - k;
  }

  // One reference: find, and queue_push on a fault.
  method FifoServe(queue: array<int>, hand: nat, ghost faults: nat, r: Page) returns (fault: bool, h: nat)
    requires hand < queue.Length
    modifies queue
    ensures fault <==> r !in old(queue[..])
    ensures Fifo(queue[..], h, if fault then faults + 1 else faults)
         == FifoStep(Fifo(old(queue[..]), hand, faults), r)
  {
    h := hand;
    var hit := Find(queue, r);
    fault := !hit;
    if fault {
      queue[hand] := r;
      h := (hand + 1) % queue.Length;
    }
  }

  // FIFO as the source runs it.
  method RunFifo(refs: seq<Page>, k: nat) returns (rows: seq<Row>, marks: seq<bool>, faults: nat)
    requires k >= 1
    ensures |rows| == |marks| == |refs| && faults == FifoRun(refs, k, |refs|).faults
    ensures FifoTable(refs, k, rows)
    ensures forall t {:trigger marks[t]} :: 0 <= t < |refs| ==> (marks[t] <==> refs[t] !in FifoRun(refs, k, t).queue)
  {
    var queue := new int[k](_ => EMPTY);
    var hand: nat := 0;
    faults, rows, marks := 0, [], [];
    assert queue[..] == Empty(k);
    for i := 0 to |refs|
      invariant |rows| == |marks| == i
      invariant fresh(queue) && Fifo(queue[..], hand, faults) == FifoRun(refs, k, i)
      invariant forall t {:trigger rows[t]} :: 0 <= t < i ==> rows[t] == FifoRun(refs, k, t + 1).queue
      invariant forall t {:trigger marks[t]} :: 0 <= t < i ==> (marks[t] <==> refs[t] !in FifoRun(refs, k, t).queue)
    {
      var fault;
      fault, hand := FifoServe(queue, hand, faults, refs[i]);
      if fault {
        faults := faults + 1;
      }
      rows, marks := rows + [queue[..]], marks + [fault];
    }
  }

  ghost predicate FifoTable(refs: seq<Page>, k: nat, rows: seq<Row>)
    requires k >= 1
  {
    |rows| == |refs| && forall t {:trigger rows[t]} :: 0 <= t < |refs| ==> rows[t] == FifoRun(refs, k, t + 1).queue
  }

  lemma FifoBefore(refs: seq<Page>, k: nat, rows: seq<Row>, t: nat)
    requires k >= 1 && FifoTable(refs, k, rows) && t <= |refs|
    ensures SetsOf(rows)[t] == Residents(FifoRun(refs, k, t).queue)
  {
  }

  lemma {:induction false} FifoFaults(refs: seq<Page>, k: nat, rows: seq<Row>, n: nat)
    requires k >= 1 && FifoTable(refs, k, rows) && n <= |refs|
    ensures Faults(refs, SetsOf(rows), n) == FifoRun(refs, k, n).faults
  {
    if n > 0 {
      FifoFaults(refs, k, rows, n - 1);
      FifoBefore(refs, k, rows, n - 1);
    }
  }

  // FIFO is a demand schedule, so its faults are never fewer than OPT's.
  lemma FifoSchedule(refs: seq<Page>, k: nat, rows: seq<Row>)
    requires k >= 1 && FifoTable(refs, k, rows)
    ensures Schedule(refs, k, SetsOf(rows)) && Faults(refs, SetsOf(rows), |refs|) == FifoRun(refs, k, |refs|).faults
  {
    forall t | 0 <= t < |refs| ensures ServesAt(refs, k, SetsOf(rows), t) {
      FifoRunOk(refs, k, t);
      FifoStepOk(FifoRun(refs, k, t), k, refs[t]);
      FifoBefore(refs, k, rows, t);
      FifoBefore(refs, k, rows, t + 1);
    }
    FifoFaults(refs, k, rows, |refs|);
  }

  // The pages FIFO has loaded during the first n references, in order.
  ghost function Loads(refs: seq<Page>, k: nat, n: nat): seq<Page>
    requires k >= 1 && n <= |refs|
  {
    if n == 0 then []
    else Loads(refs, k, n - 1) + (if refs[n - 1] in FifoRun(refs, k, n - 1).queue then [] else [refs[n - 1]])
  }

  // First in, first out: the frames hold the newest k loads, load f in slot f mod k.
  lemma {:induction false} FifoHoldsNewest(refs: seq<Page>, k: nat, n: nat, f: nat)
    requires k >= 1 && n <= |refs|
    ensures |Loads(refs, k, n)| == FifoRun(refs, k, n).faults
    ensures |Loads(refs, k, n)| - k <= f < |Loads(refs, k, n)| ==>
      FifoRun(refs, k, n).queue[f % k] == Loads(refs, k, n)[f]
  {
    if n > 0 {
      FifoRunOk(refs, k, n - 1);
      FifoHoldsNewest(refs, k, n - 1, f);
      FifoNext(refs, k, n - 1);
      var s := FifoRun(refs, k, n - 1);
      if refs[n - 1] !in s.queue && s.faults - k < f < s.faults {
        SlotsApart(f, s.faults, k);
      }
    }
  }

  lemma SlotsApart(f: nat, g: nat, k: nat)
    requires k >= 1 && f < g < f + k
    ensures f % k != g % k
  {
    var d := g / k - f / k;
    assert f % k == g % k ==> k * d == g - f;
    assert d >= 1 ==> k * d >= k;
    assert d <= 0 ==> k * d <= 0;
  }

  // ---- Second-Chance ------------------------------------------------------

  datatype Ring = Ring(queue: Row, bits: seq<bool>, hand: nat, faults: nat)

  function Ones(bits: seq<bool>): (n: nat)
    ensures n <= |bits|
  {
    if bits == [] then 0 else Ones(bits[1..]) + (if bits[0] then 1 else 0)
  }

  lemma {:induction false} OnesClear(bits: seq<bool>, i: nat)
    requires i < |bits| && bits[i]
    ensures Ones(bits[i := false]) == Ones(bits) - 1
  {
    if i == 0 {
      assert bits[i := false][1..] == bits[1..];
    } else {
      assert bits[i := false][1..] == bits[1..][i - 1 := false];
      OnesClear(bits[1..], i - 1);
    }
  }

  // The while loop of queue_pagebit_change: clear set bits until the hand points
  // at a clear one. It probes at most one frame more than there are frames.
  function Sweep(bits: seq<bool>, hand: nat): (r: (seq<bool>, nat))
    requires |bits| >= 1
    ensures |r.0| == |bits| && !r.0[r.1 % |bits|]
    ensures hand <= r.1 <= hand + Ones(bits) <= hand + |bits|
    decreases Ones(bits)
  {
    var i := hand % |bits|;
    if bits[i] then
      OnesClear(bits, i);
      Sweep(bits[i := false], hand + 1)
    else (bits, hand)
  }

  ghost predicate RingOk(s: Ring, k: nat) {
    && k >= 1 && |s.queue| == |s.bits| == k
    && (s.faults < k ==> s.hand == s.faults) && (s.faults >= k ==> s.hand >= k)
    && Filled(s.queue, Min(s.faults, k))
    && (forall i :: s.faults <= i < k ==> !s.bits[i])
  }

  function RingStep(s: Ring, r: Page): Ring
    requires |s.queue| == |s.bits| >= 1
  {
    var k := |s.queue|;
    if r in s.queue then s.(bits := s.bits[IndexOf(s.queue, r) := true])
    else if s.hand < k then
      Ring(s.queue[s.hand := r], s.bits[s.hand := false], s.hand + 1, s.faults + 1)
    else
      var (bits, hand) := Sweep(s.bits, s.hand);
      Ring(s.queue[hand % k := r], bits, hand + 1, s.faults + 1)
  }

  lemma RingStepOk(s: Ring, k: nat, r: Page)
    requires RingOk(s, k)
    ensures RingOk(RingStep(s, r), k) && r in RingStep(s, r).queue
    ensures Serves(k, Residents(s.queue), r, Residents(RingStep(s, r).queue))
  {
    if r in s.queue {
      FilledSize(s.queue, Min(s.faults, k));
    } else if s.hand < k {
      LoadServes(s.queue, s.faults, s.hand, r);
    } else {
      LoadServes(s.queue, s.faults, Sweep(s.bits, s.hand).1 % k, r);
    }
  }

  function AllClear(k: nat): seq<bool> {
    seq(k, _ => false)
  }

  // After the first n references.
  ghost function RingRun(refs: seq<Page>, k: nat, n: nat): (s: Ring)
    requires k >= 1 && n <= |refs|
    ensures |s.queue| == |s.bits| == k
    decreases n, 0
  {
    if n == 0 then Ring(Empty(k), AllClear(k), 0, 0) else RingAfter(refs, k, n - 1)
  }

  ghost function RingAfter(refs: seq<Page>, k: nat, n: nat): (s: Ring)
    requires k >= 1 && n < |refs|
    ensures |s.queue| == |s.bits| == k
    decreases n, 1
  {
    RingStep(RingRun(refs, k, n), refs[n])
  }

  lemma RingNext(refs: seq<Page>, k: nat, n: nat)
    requires k >= 1 && n < |refs|
    ensures RingRun(refs, k, n + 1) == RingStep(RingRun(refs, k, n), refs[n])
  {
  }

  lemma {:induction false} RingRunOk(refs: seq<Page>, k: nat, n: nat)
    requires k >= 1 && n <= |refs|
    ensures RingOk(RingRun(refs, k, n), k)
  {
    if n > 0 {
      RingRunOk(refs, k, n - 1);
      RingStepOk(RingRun(refs, k, n - 1), k, refs[n - 1]);
    }
  }

  // pagebit_change
  method PageBitChange(queue: array<int>, bits: array<bool>, r: Page)
    requires queue.Length == bits.Length && r in queue[..]
    modifies bits
    ensures bits[..] == old(bits[..])[IndexOf(queue[..], r) := true]
  {
    var i := 0;
    while queue[i] != r
      invariant i <= IndexOf(queue[..], r)
      decreases queue.Length - i
    {
      i := i + 1;
    }
    bits[i] := true;
  }

  // queue_pagebit_change, returning the updated queue_number
  method QueuePageBitChange(queue: array<int>, bits: array<bool>, hand: nat, r: Page) returns (h: nat)
    requires queue.Length == bits.Length >= 1
    modifies queue, bits
    ensures var k := queue.Length;
      if hand < k
      then h == hand && queue[..] == old(queue[..])[hand := r] && bits[..] == old(bits[..])[hand := false]
      else (bits[..], h) == Sweep(old(bits[..]), hand) && queue[..] == old(queue[..])[h % k := r]
  {
    h := hand;
    if h < queue.Length {
      queue[h] := r;
      bits[h] := false;
    } else {
      while bits[h % bits.Length]
        invariant Sweep(bits[..], h) == Sweep(old(bits[..]), hand) && queue[..] == old(queue[..])
        decreases Ones(bits[..])
      {
        OnesClear(bits[..], h % bits.Length);
        bits[h % bits.Length] := false;
        h := h + 1;
      }
      queue[h % queue.Length] := r;
    }
  }

  // One reference: pagebit_change on a hit, queue_pagebit_change on a fault.
  method RingServe(queue: array<int>, bits: array<bool>, hand: nat, ghost faults: nat, r: Page)
    returns (fault: bool, h: nat)
    requires queue.Length == bits.Length >= 1
    modifies queue, bits
    ensures fault <==> r !in old(queue[..])
    ensures Ring(queue[..], bits[..], h, if fault then faults + 1 else faults)
         == RingStep(Ring(old(queue[..]), old(bits[..]), hand, faults), r)
  {
    h := hand;
    var hit := Find(queue, r);
    fault := !hit;
    if hit {
      PageBitChange(queue, bits, r);
    } else {
      h := QueuePageBitChange(queue, bits, hand, r);
      h := h + 1;
    }
  }

  // The rows and marks printed for the first i references.
  ghost predicate RingLog(refs: seq<Page>, k: nat, rows: seq<Row>, marks: seq<bool>, i: nat)
    requires k >= 1
  {
    && |rows| == |marks| == i <= |refs|
    && (forall t {:trigger rows[t]} :: 0 <= t < i ==> rows[t] == RingRun(refs, k, t + 1).queue)
    && (forall t {:trigger marks[t]} :: 0 <= t < i ==> (marks[t] <==> refs[t] !in RingRun(refs, k, t).queue))
  }

  lemma RingLogStep(refs: seq<Page>, k: nat, rows: seq<Row>, marks: seq<bool>, i: nat, fault: bool)
    requires k >= 1 && RingLog(refs, k, rows, marks, i) && i < |refs|
    requires fault <==> refs[i] !in RingRun(refs, k, i).queue
    ensures RingLog(refs, k, rows + [RingRun(refs, k, i + 1).queue], marks + [fault], i + 1)
  {
    var rows', marks' := rows + [RingRun(refs, k, i + 1).queue], marks + [fault];
    forall t {:trigger rows'[t]} | 0 <= t < i + 1 ensures rows'[t] == RingRun(refs, k, t + 1).queue {
      assert t < i ==> rows'[t] == rows[t];
    }
    forall t {:trigger marks'[t]} | 0 <= t < i + 1 ensures marks'[t] <==> refs[t] !in RingRun(refs, k, t).queue {
      assert t < i ==> marks'[t] == marks[t];
    }
  }

  // SCR as the source runs it.
  method RunSecondChance(refs: seq<Page>, k: nat) returns (rows: seq<Row>, marks: seq<bool>, faults: nat)
    requires k >= 1
    ensures RingLog(refs, k, rows, marks, |refs|) && SecondChanceTable(refs, k, rows)
    ensures faults == RingRun(refs, k, |refs|).faults
  {
    var queue := new int[k](_ => EMPTY);
    var bits := new bool[k](_ => false);
    var hand: nat := 0;
    faults, rows, marks := 0, [], [];
    assert queue[..] == Empty(k);
    assert bits[..] == AllClear(k);
    for i := 0 to |refs|
      invariant fresh(queue) && fresh(bits) && queue.Length == bits.Length == k
      invariant Ring(queue[..], bits[..], hand, faults) == RingRun(refs, k, i)
      invariant RingLog(refs, k, rows, marks, i)
    {
      var fault, h := RingServe(queue, bits, hand, faults, refs[i]);
      hand := h;
      if fault {
        faults := faults + 1;
      }
      assert Ring(queue[..], bits[..], hand, faults) == RingRun(refs, k, i + 1);
      RingLogStep(refs, k, rows, marks, i, fault);
      rows, marks := rows + [queue[..]], marks + [fault];
    }
  }

  ghost predicate SecondChanceTable(refs: seq<Page>, k: nat, rows: seq<Row>)
    requires k >= 1
  {
    |rows| == |refs| && forall t {:trigger rows[t]} :: 0 <= t < |refs| ==> rows[t] == RingRun(refs, k, t + 1).queue
  }

  lemma SecondChanceBefore(refs: seq<Page>, k: nat, rows: seq<Row>, t: nat)
    requires k >= 1 && SecondChanceTable(refs, k, rows) && t <= |refs|
    ensures SetsOf(rows)[t] == Residents(RingRun(refs, k, t).queue)
  {
  }

  lemma RingFaultStep(s: Ring, r: Page)
    requires |s.queue| == |s.bits| >= 1
    ensures RingStep(s, r).faults == s.faults + (if r in Residents(s.queue) then 0 else 1)
  {
  }

  lemma {:induction false} SecondChanceFaults(refs: seq<Page>, k: nat, rows: seq<Row>, n: nat)
    requires k >= 1 && SecondChanceTable(refs, k, rows) && n <= |refs|
    ensures Faults(refs, SetsOf(rows), n) == RingRun(refs, k, n).faults
  {
    if n > 0 {
      SecondChanceFaults(refs, k, rows, n - 1);
      SecondChanceBefore(refs, k, rows, n - 1);
      RingFaultStep(RingRun(refs, k, n - 1), refs[n - 1]);
    }
  }

  lemma SecondChanceServes(refs: seq<Page>, k: nat, rows: seq<Row>, t: nat)
    requires k >= 1 && SecondChanceTable(refs, k, rows) && t < |refs|
    ensures ServesAt(refs, k, SetsOf(rows), t)
  {
    RingRunOk(refs, k, t);
    RingStepOk(RingRun(refs, k, t), k, refs[t]);
    SecondChanceBefore(refs, k, rows, t);
    SecondChanceBefore(refs, k, rows, t + 1);
  }

  // So is Second-Chance.
  lemma SecondChanceSchedule(refs: seq<Page>, k: nat, rows: seq<Row>)
    requires k >= 1 && SecondChanceTable(refs, k, rows)
    ensures Schedule(refs, k, SetsOf(rows)) && Faults(refs, SetsOf(rows), |refs|) == RingRun(refs, k, |refs|).faults
  {
    forall t | 0 <= t < |refs| ensures ServesAt(refs, k, SetsOf(rows), t) {
      SecondChanceServes(refs, k, rows, t);
    }
    SecondChanceFaults(refs, k, rows, |refs|);
  }

  // ---- Second-Chance on a list --------------------------------------------

  // Pages with their reference bits, next candidate for eviction first.
  type Chances = seq<(int, bool)>

  function SetBits(l: Chances): nat {
    if l == [] then 0 else SetBits(l[1..]) + (if l[0].1 then 1 else 0)
  }

  lemma {:induction false} SetBitsAppend(l: Chances, e: (int, bool))
    ensures SetBits(l + [e]) == SetBits(l) + (if e.1 then 1 else 0)
  {
    if l != [] {
      assert (l + [e])[1..] == l[1..] + [e];
      SetBitsAppend(l[1..], e);
    }
  }

  // Rotate while the head has its bit set, clearing it; then replace the head.
  function Evict(l: Chances, r: Page): Chances
    requires l != []
    decreases SetBits(l)
  {
    if l[0].1 then
      SetBitsAppend(l[1..], (l[0].0, false));
      Evict(l[1..] + [(l[0].0, false)], r)
    else l[1..] + [(r, false)]
  }

  function ListStep(l: Chances, k: nat, r: Page): Chances {
    if exists i :: 0 <= i < |l| && l[i].0 == r
    then seq(|l|, i requires 0 <= i < |l| => if l[i].0 == r then (r, true) else l[i])
    else if |l| < k || l == [] then l + [(r, false)]
    else Evict(l, r)
  }

  // A full ring read from the hand onwards.
  function Turn(queue: Row, bits: seq<bool>, hand: nat): Chances
    requires |queue| == |bits| >= 1
  {
    seq(|queue|, j requires 0 <= j => (queue[(hand + j) % |queue|], bits[(hand + j) % |queue|]))
  }

  function View(s: Ring): Chances
    requires |s.queue| == |s.bits| >= 1
  {
    if s.hand < |s.queue| then seq(s.hand, j requires 0 <= j < s.hand => (s.queue[j], s.bits[j]))
    else Turn(s.queue, s.bits, s.hand)
  }

  // Rewriting the frame under the hand and moving on is a rotation.
  lemma TurnRotates(queue: Row, bits: seq<bool>, hand: nat, x: int, b: bool)
    requires |queue| == |bits| >= 1
    ensures var i := hand % |queue|;
      Turn(queue[i := x], bits[i := b], hand + 1) == Turn(queue, bits, hand)[1..] + [(x, b)]
  {
    var k := |queue|;
    var i := hand % k;
    var l, m := Turn(queue[i := x], bits[i := b], hand + 1), Turn(queue, bits, hand)[1..] + [(x, b)];
    forall j | 0 <= j < k ensures l[j] == m[j] {
      if j < k - 1 {
        SlotsApart(hand, hand + 1 + j, k);
      } else {
        Quotient(hand + k, k, hand / k + 1, i);
      }
    }
  }

  // The sweep and replacement on the ring is the rotation and replacement on the list.
  lemma {:induction false} SweepRefinesEvict(queue: Row, bits: seq<bool>, hand: nat, r: Page)
    requires |queue| == |bits| >= 1
    ensures var (bits', hand') := Sweep(bits, hand);
      Turn(queue[hand' % |queue| := r], bits', hand' + 1) == Evict(Turn(queue, bits, hand), r)
    decreases Ones(bits)
  {
    var k := |queue|;
    var i := hand % k;
    var l := Turn(queue, bits, hand);
    assert l[0] == (queue[i], bits[i]);
    if bits[i] {
      OnesClear(bits, i);
      SweepRefinesEvict(queue, bits[i := false], hand + 1, r);
      TurnRotates(queue, bits, hand, queue[i], false);
      assert queue[i := queue[i]] == queue;
    } else {
      TurnRotates(queue, bits, hand, r, false);
      assert bits[i := false] == bits;
    }
  }

  // Setting the bit of the one frame that holds r, read at any turn.
  lemma TurnSetsBit(queue: Row, bits: seq<bool>, hand: nat, i: nat, r: Page)
    requires |queue| == |bits| && i < |queue| && queue[i] == r
    requires forall j :: 0 <= j < |queue| && queue[j] == r ==> j == i
    ensures var l := Turn(queue, bits, hand);
      && Turn(queue, bits[i := true], hand)
         == seq(|l|, j requires 0 <= j < |l| => if l[j].0 == r then (r, true) else l[j])
      && exists j :: 0 <= j < |l| && l[j].0 == r
  {
    var k, h := |queue|, hand % |queue|;
    var j := if i >= h then i - h else i + k - h;
    if i >= h {
      Quotient(hand + j, k, hand / k, i);
    } else {
      Quotient(hand + j, k, hand / k + 1, i);
    }
    assert Turn(queue, bits, hand)[j].0 == r;
  }

  lemma HitRefines(s: Ring, k: nat, r: Page)
    requires RingOk(s, k) && r in s.queue
    ensures View(RingStep(s, r)) == ListStep(View(s), k, r)
  {
    var i := IndexOf(s.queue, r);
    assert forall j :: 0 <= j < |s.queue| && s.queue[j] == r ==> j == i;
    if s.hand < k {
      assert View(s)[i].0 == r;
    } else {
      TurnSetsBit(s.queue, s.bits, s.hand, i, r);
    }
  }

  lemma LoadRefines(s: Ring, k: nat, r: Page)
    requires RingOk(s, k) && s.hand < k && r !in s.queue
    ensures View(RingStep(s, r)) == View(s) + [(r, false)]
  {
    var t := RingStep(s, r);
    if s.hand == k - 1 {
      forall j | 0 <= j < k ensures View(t)[j] == (View(s) + [(r, false)])[j] {
        Quotient(k + j, k, 1, j);
      }
    }
  }

  lemma ViewOf(s: Ring, j: nat)
    requires |s.queue| == |s.bits| >= 1 && j < |View(s)|
    ensures View(s)[j].0 in s.queue
  {
  }

  lemma EvictRefines(s: Ring, k: nat, r: Page)
    requires RingOk(s, k) && r !in s.queue && s.hand >= k
    ensures View(RingStep(s, r)) == Evict(View(s), r) && |View(s)| == k
  {
    SweepRefinesEvict(s.queue, s.bits, s.hand, r);
    assert RingStep(s, r).hand >= k;
  }

  lemma MissRefines(s: Ring, k: nat, r: Page)
    requires RingOk(s, k) && r !in s.queue
    ensures View(RingStep(s, r)) == ListStep(View(s), k, r)
  {
    forall i | 0 <= i < |View(s)| ensures View(s)[i].0 != r {
      ViewOf(s, i);
    }
    if s.hand < k {
      LoadRefines(s, k, r);
      assert |View(s)| < k;
    } else {
      EvictRefines(s, k, r);
    }
  }

  // In every run the ring, read from the hand, evolves as the list algorithm.
  lemma {:induction false} RingRefinesList(refs: seq<Page>, k: nat, n: nat)
    requires k >= 1 && n < |refs|
    ensures View(RingRun(refs, k, n + 1)) == ListStep(View(RingRun(refs, k, n)), k, refs[n])
  {
    RingRunOk(refs, k, n);
    if refs[n] in RingRun(refs, k, n).queue {
      HitRefines(RingRun(refs, k, n), k, refs[n]);
    } else {
      MissRefines(RingRun(refs, k, n), k, refs[n]);
    }
  }

  // With all bits clear, a fault is handled as FIFO would.
  lemma ClearFault(s: Ring, f: Fifo, k: nat, r: Page)
    requires FifoOk(f, k) && s.queue == f.queue && s.bits == AllClear(k) && s.hand == f.faults && r !in s.queue
    ensures RingStep(s, r).queue == FifoStep(f, r).queue
    ensures RingStep(s, r).bits == AllClear(k) && RingStep(s, r).hand == f.faults + 1
  {
    if s.hand < k {
      Quotient(s.hand, k, 0, s.hand);
      assert AllClear(k)[s.hand := false] == AllClear(k);
    } else {
      assert Sweep(AllClear(k), s.hand) == (AllClear(k), s.hand);
    }
  }

  // Without hits no bit is ever set, and Second-Chance fills the frames as FIFO.
  lemma {:induction false} NoHitsNoDifference(refs: seq<Page>, k: nat, n: nat)
    requires k >= 1 && n <= |refs|
    requires forall t {:trigger RingRun(refs, k, t)} :: 0 <= t < n ==> refs[t] !in RingRun(refs, k, t).queue
    ensures RingRun(refs, k, n).queue == FifoRun(refs, k, n).queue
    ensures RingRun(refs, k, n).bits == AllClear(k) && RingRun(refs, k, n).hand == FifoRun(refs, k, n).faults == n
  {
    if n > 0 {
      NoHitsNoDifference(refs, k, n - 1);
      FifoRunOk(refs, k, n - 1);
      ClearFault(RingRun(refs, k, n - 1), FifoRun(refs, k, n - 1), k, refs[n - 1]);
    }
  }
}
