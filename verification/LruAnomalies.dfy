// Runs of LRU on which a hit before the frames fill upsets its stack, and what
// the program then reports.
module LruAnomalies {
  import opened Common
  import opened Paging
  import opened Lru

  // ---- What a reference does, by cases -------------------------------------------------

  // i is the place where the page or the victim is found first.
  datatype Move =
    | FillMiss
    | FillHit             // the harmful one: the stack entry at `number` is overwritten
    | FullHit(i: nat)
    | StrayHit            // resident, and not listed in the stack
    | FullMiss(i: nat)
    | LostMiss            // the victim is not resident: a fault, and nothing loaded

  predicate Fits(s: Lru, k: nat, r: Page, m: Move)
    requires Sized(s, k)
  {
    && (m.FillMiss? || m.FillHit? <==> s.number < k)
    && (m.FillHit? || m.FullHit? || m.StrayHit? <==> r in s.page)
    && match m
       case FullHit(i) => i < k && s.stack[i] == r && r !in s.stack[..i]
       case StrayHit => r !in s.stack
       case FullMiss(i) => i < k && s.page[i] == s.stack[k - 1] && s.page[i] !in s.page[..i]
       case LostMiss => s.stack[k - 1] !in s.page
       case _ => true
  }

  function Moved(s: Lru, k: nat, r: Page, m: Move): Lru
    requires Sized(s, k) && Fits(s, k, r, m)
  {
    var n := s.number;
    match m
    case FillMiss => Lru(s.page[n := r], [r] + s.stack[..n] + s.stack[n + 1..], n + 1)
    case FillHit => Lru(s.page, [r] + s.stack[..n] + s.stack[n + 1..], n)
    case FullHit(i) => Lru(s.page, [r] + s.stack[..i] + s.stack[i + 1..], n)
    case StrayHit => Lru(s.page, [r] + seq(k - 1, _ => s.stack[0]), n)
    case FullMiss(i) => Lru(s.page[i := r], [r] + s.stack[..k - 1], n + 1)
    case LostMiss => Lru(s.page, [r] + s.stack[..k - 1], n + 1)
  }

  lemma {:induction false} IndexIs(s: Row, x: int, i: nat)
    requires i < |s| && s[i] == x && x !in s[..i]
    ensures x in s && IndexOf(s, x) == i
  {
    if i > 0 {
      assert s[0] in s[..i] && s[..i][1..] == s[1..][..i - 1];
      assert x !in s[..i][1..];
      IndexIs(s[1..], x, i - 1);
    }
  }

  // A page pushed on the stack is found at its top.
  lemma TopUpdate(stack: Row, number: nat, r: Page)
    requires |stack| >= 1 && number >= |stack| && stack[0] == r
    ensures StackUpdate(stack, number, r) == stack
  {
    IndexIs(stack, r, 0);
  }

  lemma MovedIsStep(s: Lru, k: nat, r: Page, m: Move)
    requires Sized(s, k) && Fits(s, k, r, m)
    ensures Step(s, r) == Moved(s, k, r, m)
  {
    match m
    case FullHit(i) => IndexIs(s.stack, r, i);
    case FullMiss(i) =>
      IndexIs(s.page, s.stack[k - 1], i);
      TopUpdate([r] + s.stack[..k - 1], s.number, r);
    case LostMiss => TopUpdate([r] + s.stack[..k - 1], s.number, r);
    case _ =>
  }

  // ---- Tables of states ------------------------------------------------------------------

  predicate TraceAt(refs: seq<Page>, k: nat, ss: seq<Lru>, ms: seq<Move>, i: nat)
    requires i < |refs| && i < |ms| && i + 1 < |ss|
  {
    Sized(ss[i], k) && Fits(ss[i], k, refs[i], ms[i]) && Moved(ss[i], k, refs[i], ms[i]) == ss[i + 1]
  }

  // By the moves ms, the references take LRU through the states ss.
  predicate Trace(refs: seq<Page>, k: nat, ss: seq<Lru>, ms: seq<Move>) {
    && |ss| == |refs| + 1 && |ms| == |refs| && ss[0] == Lru(Empty(k), Empty(k), 0)
    && forall i :: 0 <= i < |refs| ==> TraceAt(refs, k, ss, ms, i)
  }

  lemma {:induction false} TraceRun(refs: seq<Page>, k: nat, ss: seq<Lru>, ms: seq<Move>, n: nat)
    requires k >= 1 && Trace(refs, k, ss, ms) && n <= |refs|
    ensures Run(refs, k, n) == ss[n]
  {
    if n > 0 {
      TraceRun(refs, k, ss, ms, n - 1);
      assert TraceAt(refs, k, ss, ms, n - 1);
      MovedIsStep(ss[n - 1], k, refs[n - 1], ms[n - 1]);
    }
  }

  // ---- LRU can report fewer faults than OPT ------------------------------------------

  // With three frames the repeated 2 leaves two entries for it in the stack: 2 is
  // the victim twice, page 1 is never loaded, and 4, 3 and 0 hit.
  const FOOLING: seq<Page> := [4, 2, 2, 0, 3, 3, 1, 4, 3, 0]

  function Fooled(): seq<Lru> {
    [Lru([EMPTY, EMPTY, EMPTY], [EMPTY, EMPTY, EMPTY], 0),
     Lru([4, EMPTY, EMPTY], [4, EMPTY, EMPTY], 1),
     Lru([4, 2, EMPTY], [2, 4, EMPTY], 2),
     Lru([4, 2, EMPTY], [2, 2, 4], 2),
     Lru([4, 2, 0], [0, 2, 2], 3),
     Lru([4, 3, 0], [3, 0, 2], 4),
     Lru([4, 3, 0], [3, 0, 2], 4),
     Lru([4, 3, 0], [1, 3, 0], 5),
     Lru([4, 3, 0], [4, 1, 1], 5),
     Lru([4, 3, 0], [3, 4, 4], 5),
     Lru([4, 3, 0], [0, 3, 3], 5)]
  }

  function FooledMoves(): seq<Move> {
    [FillMiss, FillMiss, FillHit, FillMiss, FullMiss(1), FullHit(0), LostMiss, StrayHit, StrayHit, StrayHit]
  }

  lemma FooledStarts(i: nat)
    requires i < 5
    ensures TraceAt(FOOLING, 3, Fooled(), FooledMoves(), i)
  {
    assert i == 0 || i == 1 || i == 2 || i == 3 || i == 4;
  }

  lemma FooledEnds(i: nat)
    requires 5 <= i < 10
    ensures TraceAt(FOOLING, 3, Fooled(), FooledMoves(), i)
  {
    assert i == 5 || i == 6 || i == 7 || i == 8 || i == 9;
  }

  lemma FooledIsTrace()
    ensures Trace(FOOLING, 3, Fooled(), FooledMoves())
  {
    assert Empty(3) == [EMPTY, EMPTY, EMPTY];
    forall i | 0 <= i < 10 ensures TraceAt(FOOLING, 3, Fooled(), FooledMoves(), i) {
      if i < 5 { FooledStarts(i); } else { FooledEnds(i); }
    }
  }

  // Any demand schedule has five first loads, and after page 1 at most two of
  // 4, 3 and 0 can still be resident.
  lemma FoolingNeedsSix(b: seq<set<int>>)
    requires Schedule(FOOLING, 3, b)
    ensures Faults(FOOLING, b, 10) >= 6
  {
    Grows(b);
    assert 4 !in b[7] || 3 !in b[8] || 0 !in b[9] by {
      if 4 in b[7] && 3 in b[8] && 0 in b[9] {
        assert ServesAt(FOOLING, 3, b, 6) && ServesAt(FOOLING, 3, b, 7) && ServesAt(FOOLING, 3, b, 8);
        SubsetSize({1, 4, 3, 0}, b[7]);
        assert false;
      }
    }
    CountFaults(b);
  }

  lemma Grows(b: seq<set<int>>)
    requires Schedule(FOOLING, 3, b)
    ensures b[1] <= {4} && b[3] <= {4, 2} && b[4] <= {4, 2, 0} && b[6] <= {4, 2, 0, 3}
  {
    assert ServesAt(FOOLING, 3, b, 0) && ServesAt(FOOLING, 3, b, 1) && ServesAt(FOOLING, 3, b, 2);
    assert ServesAt(FOOLING, 3, b, 3) && ServesAt(FOOLING, 3, b, 4) && ServesAt(FOOLING, 3, b, 5);
  }

  lemma CountFaults(b: seq<set<int>>)
    requires |b| == 11
    requires 4 !in b[0] && 2 !in b[1] && 0 !in b[3] && 3 !in b[4] && 1 !in b[6]
      && (4 !in b[7] || 3 !in b[8] || 0 !in b[9])
    ensures Faults(FOOLING, b, 10) >= 6
  {
    assert Faults(FOOLING, b, 1) == 1;
    assert Faults(FOOLING, b, 2) == 2;
    assert Faults(FOOLING, b, 3) >= 2;
    assert Faults(FOOLING, b, 4) >= 3;
    assert Faults(FOOLING, b, 5) >= 4;
    assert Faults(FOOLING, b, 6) >= 4;
    assert Faults(FOOLING, b, 7) >= 5;
    assert Faults(FOOLING, b, 8) >= 5 + (if 4 in b[7] then 0 else 1);
    assert Faults(FOOLING, b, 9) >= 5 + (if 4 in b[7] && 3 in b[8] then 0 else 1);
  }

  // On this string LRU reports five faults where every schedule, OPT's included,
  // has at least six.
  lemma LruCanBeatOpt(b: seq<set<int>>)
    requires Schedule(FOOLING, 3, b)
    ensures Run(FOOLING, 3, |FOOLING|).number == 5 && Faults(FOOLING, b, |FOOLING|) >= 6
  {
    FooledIsTrace();
    TraceRun(FOOLING, 3, Fooled(), FooledMoves(), 10);
    FoolingNeedsSix(b);
  }

  // ---- One more frame can hurt ------------------------------------------------------

  // With three frames the repeated 1 leaves two entries for it in the stack, and
  // it is evicted although just used.
  const HURTING: seq<Page> := [0, 1, 1, 2, 1, 3, 1]

  function OnTwo(): seq<Lru> {
    [Lru([EMPTY, EMPTY], [EMPTY, EMPTY], 0),
     Lru([0, EMPTY], [0, EMPTY], 1),
     Lru([0, 1], [1, 0], 2),
     Lru([0, 1], [1, 0], 2),
     Lru([2, 1], [2, 1], 3),
     Lru([2, 1], [1, 2], 3),
     Lru([3, 1], [3, 1], 4),
     Lru([3, 1], [1, 3], 4)]
  }

  function OnTwoMoves(): seq<Move> {
    [FillMiss, FillMiss, FullHit(0), FullMiss(0), FullHit(1), FullMiss(0), FullHit(1)]
  }

  function OnThree(): seq<Lru> {
    [Lru([EMPTY, EMPTY, EMPTY], [EMPTY, EMPTY, EMPTY], 0),
     Lru([0, EMPTY, EMPTY], [0, EMPTY, EMPTY], 1),
     Lru([0, 1, EMPTY], [1, 0, EMPTY], 2),
     Lru([0, 1, EMPTY], [1, 1, 0], 2),
     Lru([0, 1, 2], [2, 1, 1], 3),
     Lru([0, 1, 2], [1, 2, 1], 3),
     Lru([0, 3, 2], [3, 1, 2], 4),
     Lru([0, 3, 1], [1, 3, 1], 5)]
  }

  function OnThreeMoves(): seq<Move> {
    [FillMiss, FillMiss, FillHit, FillMiss, FullHit(1), FullMiss(1), FullMiss(2)]
  }

  lemma OnTwoIsTrace()
    ensures Trace(HURTING, 2, OnTwo(), OnTwoMoves())
  {
    assert Empty(2) == [EMPTY, EMPTY];
    forall i | 0 <= i < 7 ensures TraceAt(HURTING, 2, OnTwo(), OnTwoMoves(), i) {
      assert i == 0 || i == 1 || i == 2 || i == 3 || i == 4 || i == 5 || i == 6;
    }
  }

  lemma OnThreeStarts(i: nat)
    requires i < 4
    ensures TraceAt(HURTING, 3, OnThree(), OnThreeMoves(), i)
  {
    assert i == 0 || i == 1 || i == 2 || i == 3;
  }

  lemma OnThreeEnds(i: nat)
    requires 4 <= i < 7
    ensures TraceAt(HURTING, 3, OnThree(), OnThreeMoves(), i)
  {
    assert i == 4 || i == 5 || i == 6;
  }

  lemma OnThreeIsTrace()
    ensures Trace(HURTING, 3, OnThree(), OnThreeMoves())
  {
    assert Empty(3) == [EMPTY, EMPTY, EMPTY];
    forall i | 0 <= i < 7 ensures TraceAt(HURTING, 3, OnThree(), OnThreeMoves(), i) {
      if i < 4 { OnThreeStarts(i); } else { OnThreeEnds(i); }
    }
  }

  lemma MoreFramesCanHurt()
    ensures Run(HURTING, 2, |HURTING|).number == 4 && Run(HURTING, 3, |HURTING|).number == 5
  {
    OnTwoIsTrace();
    TraceRun(HURTING, 2, OnTwo(), OnTwoMoves(), 7);
    OnThreeIsTrace();
    TraceRun(HURTING, 3, OnThree(), OnThreeMoves(), 7);
  }
}
