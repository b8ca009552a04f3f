// LRU with page_change and stack_update: `page` holds the frames, `stack` is
// meant to list them by recency.
module Lru {
  import opened Common
  import opened Paging

  datatype Lru = Lru(page: Row, stack: Row, number: nat)

  predicate Sized(s: Lru, k: nat) {
    k >= 1 && |s.page| == |s.stack| == k
  }

  // page_change, on the frames and on the stack
  function PageChange(s: Lru, r: Page): Lru
    requires Sized(s, |s.page|)
  {
    var k := |s.page|;
    if s.number < k then s.(page := s.page[s.number := r])
    else
      var victim := s.stack[k - 1];
      s.(page := if victim in s.page then s.page[IndexOf(s.page, victim) := r] else s.page,
         stack := [r] + s.stack[..k - 1])
  }

  // stack_update. While frames are free the first `number` entries move down,
  // whether or not r is among them; the last branch copies entry 0 into all
  // the others, as its ascending loop does.
  function StackUpdate(stack: Row, number: nat, r: Page): Row
    requires |stack| >= 1
  {
    var k := |stack|;
    if number < k then [r] + stack[..number] + stack[number + 1..]
    else if r in stack then
      var i := IndexOf(stack, r);
      [r] + stack[..i] + stack[i + 1..]
    else [r] + seq(k - 1, _ => stack[0])
  }

  function Step(s: Lru, r: Page): (t: Lru)
    requires Sized(s, |s.page|)
    ensures Sized(t, |s.page|)
  {
    if r in s.page then s.(stack := StackUpdate(s.stack, s.number, r))
    else
      var t := PageChange(s, r);
      Lru(t.page, StackUpdate(t.stack, s.number, r), s.number + 1)
  }

  // After the first n references.
  ghost function Run(refs: seq<Page>, k: nat, n: nat): (s: Lru)
    requires k >= 1 && n <= |refs|
    ensures Sized(s, k)
    decreases n, 0
  {
    if n == 0 then Lru(Empty(k), Empty(k), 0) else After(refs, k, n - 1)
  }

  // After one more.
  ghost function After(refs: seq<Page>, k: nat, n: nat): (s: Lru)
    requires k >= 1 && n < |refs|
    ensures Sized(s, k)
    decreases n, 1
  {
    Step(Run(refs, k, n), refs[n])
  }

  lemma RunNext(refs: seq<Page>, k: nat, n: nat)
    requires k >= 1 && n < |refs|
    ensures Run(refs, k, n + 1) == Step(Run(refs, k, n), refs[n])
  {
  }

  // ---- The code -----------------------------------------------------------

  method ShiftDown(stack: array<int>, i: nat, r: Page)
    requires i < stack.Length
    modifies stack
    ensures stack[..] == [r] + old(stack[..])[..i] + old(stack[..])[i + 1..]
  {
    var j := i;
    while j > 0
      invariant 0 <= j <= i
      invariant forall l :: 0 <= l < stack.Length ==>
        stack[l] == if j < l <= i then old(stack[l - 1]) else old(stack[l])
    {
      stack[j] := stack[j - 1];
      j := j - 1;
    }
    stack[0] := r;
  }

  method ChangePage(page: array<int>, stack: array<int>, number: nat, r: Page)
    requires page != stack && page.Length == stack.Length >= 1
    modifies page, stack
    ensures Lru(page[..], stack[..], number) == PageChange(Lru(old(page[..]), old(stack[..]), number), r)
  {
    var k := page.Length;
    if number < k {
      page[number] := r;
    } else {
      var i := 0;
      while i < k && page[i] != stack[k - 1]
        invariant i <= k && stack[k - 1] !in page[..i]
      {
        i := i + 1;
      }
      if i < k {
        page[i] := r;
      }
      ShiftDown(stack, k - 1, r);
    }
  }

  method UpdateStack(stack: array<int>, number: nat, r: Page)
    requires stack.Length >= 1
    modifies stack
    ensures stack[..] == StackUpdate(old(stack[..]), number, r)
  {
    var k := stack.Length;
    if number < k {
      ShiftDown(stack, number, r);
    } else {
      var i := 0;
      while i < k && stack[i] != r
        invariant i <= k && r !in stack[..i]
      {
        i := i + 1;
      }
      if i < k {
        ShiftDown(stack, i, r);
      } else {
        i := 1;
        while i < k
          invariant 1 <= i <= k && stack[0] == old(stack[0])
          invariant forall l :: 1 <= l < i ==> stack[l] == stack[0]
        {
          stack[i] := stack[i - 1];
          i := i + 1;
        }
        stack[0] := r;
      }
    }
  }

  method Serve(page: array<int>, stack: array<int>, number: nat, r: Page) returns (fault: bool)
    requires page != stack && page.Length == stack.Length >= 1
    modifies page, stack
    ensures fault <==> r !in old(page[..])
    ensures Lru(page[..], stack[..], if fault then number + 1 else number)
         == Step(Lru(old(page[..]), old(stack[..]), number), r)
  {
    var hit := Find(page, r);
    fault := !hit;
    if fault {
      ChangePage(page, stack, number, r);
    }
    UpdateStack(stack, number, r);
  }

  // The rows and the marks printed for the first i references.
  ghost predicate RowAt(refs: seq<Page>, k: nat, rows: seq<Row>, t: nat)
    requires k >= 1 && t < |refs| && t < |rows|
  {
    rows[t] == Run(refs, k, t + 1).page
  }

  ghost predicate MarkAt(refs: seq<Page>, k: nat, marks: seq<bool>, t: nat)
    requires k >= 1 && t < |refs| && t < |marks|
  {
    marks[t] <==> refs[t] !in Run(refs, k, t).page
  }

  ghost predicate RowsLog(refs: seq<Page>, k: nat, rows: seq<Row>, i: nat)
    requires k >= 1
  {
    |rows| == i <= |refs| && forall t :: 0 <= t < i ==> RowAt(refs, k, rows, t)
  }

  ghost predicate MarksLog(refs: seq<Page>, k: nat, marks: seq<bool>, i: nat)
    requires k >= 1
  {
    |marks| == i <= |refs| && forall t :: 0 <= t < i ==> MarkAt(refs, k, marks, t)
  }

  lemma RowsLogStep(refs: seq<Page>, k: nat, rows: seq<Row>, i: nat, row: Row)
    requires k >= 1 && i < |refs| && RowsLog(refs, k, rows, i) && row == Run(refs, k, i + 1).page
    ensures RowsLog(refs, k, rows + [row], i + 1)
  {
    forall t | 0 <= t < i + 1 ensures RowAt(refs, k, rows + [row], t) {
      assert t < i ==> RowAt(refs, k, rows, t);
    }
  }

  lemma MarksLogStep(refs: seq<Page>, k: nat, marks: seq<bool>, i: nat, fault: bool)
    requires k >= 1 && i < |refs| && MarksLog(refs, k, marks, i)
    requires fault <==> refs[i] !in Run(refs, k, i).page
    ensures MarksLog(refs, k, marks + [fault], i + 1)
  {
    forall t | 0 <= t < i + 1 ensures MarkAt(refs, k, marks + [fault], t) {
      assert t < i ==> MarkAt(refs, k, marks, t);
    }
  }

  // Reference i of a run.
  method ServeAt(refs: seq<Page>, page: array<int>, stack: array<int>, i: nat, number: nat)
    returns (fault: bool, faults: nat)
    requires page != stack && page.Length == stack.Length >= 1 && i < |refs|
    requires Lru(page[..], stack[..], number) == Run(refs, page.Length, i)
    modifies page, stack
    ensures fault <==> refs[i] !in Run(refs, page.Length, i).page
    ensures Lru(page[..], stack[..], faults) == Run(refs, page.Length, i + 1)
  {
    fault := Serve(page, stack, number, refs[i]);
    faults := if fault then number + 1 else number;
  }

  // LRU as the source runs it.
  method RunLru(refs: seq<Page>, k: nat) returns (rows: seq<Row>, marks: seq<bool>, faults: nat)
    requires k >= 1
    ensures RowsLog(refs, k, rows, |refs|) && MarksLog(refs, k, marks, |refs|)
    ensures faults == Run(refs, k, |refs|).number
  {
    var page := new int[k](_ => EMPTY);
    var stack := new int[k](_ => EMPTY);
    faults, rows, marks := 0, [], [];
    assert page[..] == Empty(k);
    assert stack[..] == Empty(k);
    for i := 0 to |refs|
      invariant fresh(page) && fresh(stack) && page != stack
      invariant Lru(page[..], stack[..], faults) == Run(refs, k, i)
      invariant RowsLog(refs, k, rows, i) && MarksLog(refs, k, marks, i)
    {
      var fault;
      fault, faults := ServeAt(refs, page, stack, i, faults);
      RowsLogStep(refs, k, rows, i, page[..]);
      MarksLogStep(refs, k, marks, i, fault);
      rows, marks := rows + [page[..]], marks + [fault];
    }
  }

  // ---- Recency ------------------------------------------------------------

  function Without(s: Row, x: int): (t: Row)
    ensures x !in t && forall y :: y in t <==> y in s && y != x
  {
    if s == [] then []
    else
      assert s == [s[0]] + s[1..];
      var t := Without(s[1..], x);
      if s[0] == x then t else [s[0]] + t
  }

  ghost predicate Unique(s: Row) {
    forall i, j :: 0 <= i < j < |s| ==> s[i] != s[j]
  }

  // Removing the only occurrence of x, at i.
  lemma {:induction false} WithoutAt(s: Row, i: nat)
    requires i < |s| && Unique(s)
    ensures Without(s, s[i]) == s[..i] + s[i + 1..]
  {
    var tail := s[1..];
    assert forall j :: 0 <= j < |tail| ==> tail[j] == s[j + 1];
    if i == 0 {
      assert s[0] !in tail;
      WithoutAbsent(tail, s[0]);
    } else {
      WithoutAt(tail, i - 1);
      assert Without(s, s[i]) == [s[0]] + Without(tail, s[i]);
      assert s[..i] == [s[0]] + tail[..i - 1];
      assert tail[i..] == s[i + 1..];
    }
  }

  lemma {:induction false} WithoutAbsent(s: Row, x: int)
    requires x !in s
    ensures Without(s, x) == s
  {
    if s != [] {
      WithoutAbsent(s[1..], x);
    }
  }

  // Removing x leaves an initial part that lacks it untouched.
  lemma {:induction false} WithoutPrefix(s: Row, x: int, n: nat)
    requires n <= |s| && x !in s[..n]
    ensures n <= |Without(s, x)| && Without(s, x)[..n] == s[..n]
  {
    if n > 0 {
      assert s[..n] == [s[0]] + s[1..][..n - 1];
      WithoutPrefix(s[1..], x, n - 1);
    }
  }

  lemma {:induction false} WithoutUnique(s: Row, x: int)
    requires Unique(s)
    ensures Unique(Without(s, x))
  {
    if s != [] {
      assert forall j :: 0 <= j < |s[1..]| ==> s[1..][j] == s[j + 1];
      assert s[0] !in s[1..];
      WithoutUnique(s[1..], x);
    }
  }

  // The pages of the first n references, most recently used first.
  ghost function Recency(refs: seq<Page>, n: nat): Row
    requires n <= |refs|
  {
    if n == 0 then [] else [refs[n - 1]] + Without(Recency(refs, n - 1), refs[n - 1])
  }

  lemma {:induction false} RecencyUnique(refs: seq<Page>, n: nat)
    requires n <= |refs|
    ensures Unique(Recency(refs, n)) && forall x :: x in Recency(refs, n) ==> x >= 0
  {
    if n > 0 {
      RecencyUnique(refs, n - 1);
      WithoutUnique(Recency(refs, n - 1), refs[n - 1]);
    }
  }

  // ---- When the stack is in order -------------------------------------------

  // Given the pages l by recency: the frames hold the first k of them and the
  // stack lists them in that order.
  ghost predicate Lists(s: Lru, l: Row, k: nat)
    requires Sized(s, k)
  {
    var w := Min(|l|, k);
    && Min(s.number, k) == w && s.stack[..w] == l[..w]
    && Filled(s.page, w) && (forall x :: x != EMPTY ==> (x in s.page <==> x in l[..w]))
  }

  function Touch(l: Row, r: int): Row {
    [r] + Without(l, r)
  }

  // A hit while frames are free: harmless if it is on the last page of l,
  // otherwise that page drops out of the listed part of the stack.
  lemma FillHit(s: Lru, l: Row, k: nat, r: Page)
    requires Sized(s, k) && Lists(s, l, k) && Unique(l) && |l| < k && r in s.page
    ensures r in l && (Lists(Step(s, r), Touch(l, r), k) <==> r == l[|l| - 1])
  {
    var n := |l| - 1;
    assert r in l[..|l|];
    var i :| 0 <= i < |l| && l[i] == r;
    WithoutAt(l, i);
    var t := Step(s, r);
    assert s.number == |l|;
    assert t.stack[..|l|] == [r] + l[..n];
    assert |Touch(l, r)| == |l|;
    if i == n {
      assert Touch(l, r) == [r] + l[..n];
      forall x ensures x in Touch(l, r)[..|l|] <==> x in l[..|l|] {
        assert Touch(l, r)[..|l|] == Touch(l, r) && l[..|l|] == l;
      }
    } else {
      assert Touch(l, r)[n] == l[n];
      assert n > 0;
      assert ([r] + l[..n])[n] == l[n - 1];
      assert Touch(l, r)[..|l|][n] == l[n];
    }
  }

  // A hit with all frames in use moves the page to the front.
  lemma FullHit(s: Lru, l: Row, k: nat, r: Page)
    requires Sized(s, k) && Lists(s, l, k) && Unique(l) && |l| >= k && r in s.page
    ensures Lists(Step(s, r), Touch(l, r), k)
  {
    assert r in l[..k];
    var i :| 0 <= i < k && l[i] == r;
    assert s.stack == l[..k];
    TouchFront(l, k, i);
    assert IndexOf(s.stack, r) == i;
    assert Step(s, r).stack == [r] + s.stack[..i] + s.stack[i + 1..];
    assert s.stack[..i] == l[..i] && s.stack[i + 1..] == l[i + 1..k];
  }

  lemma TouchFront(l: Row, k: nat, i: nat)
    requires i < k <= |l| && Unique(l)
    ensures |Touch(l, l[i])| == |l| && Touch(l, l[i])[..k] == [l[i]] + l[..i] + l[i + 1..k]
    ensures forall x :: x in l[..k] <==> x in Touch(l, l[i])[..k]
  {
    WithoutAt(l, i);
    var m := [l[i]] + l[..i] + l[i + 1..k];
    assert Touch(l, l[i])[..k] == m;
    assert l[..k] == l[..i] + [l[i]] + l[i + 1..k];
    assert forall x :: x in m <==> x in l[..k];
  }

  // A fault with a free frame.
  lemma FillMiss(s: Lru, l: Row, k: nat, r: Page)
    requires Sized(s, k) && Lists(s, l, k) && |l| < k && r !in s.page
    ensures Lists(Step(s, r), Touch(l, r), k)
  {
    assert l[..|l|] == l;
    WithoutAbsent(l, r);
    var t := Step(s, r);
    LoadedRow(s.page, s.number, s.number, r);
    assert Touch(l, r)[..|l| + 1] == [r] + l;
    assert t.stack[..|l| + 1] == [r] + s.stack[..|l|];
    SameMembers(s.page, t.page, s.number, r);
  }

  lemma SameMembers(row: Row, row': Row, i: nat, r: int)
    requires i < |row| && row' == row[i := r]
      && (forall j :: 0 <= j < |row| && row[j] == row[i] && row[i] != EMPTY ==> j == i)
    ensures forall x :: x != EMPTY ==> (x in row' <==> x == r || (x in row && x != row[i]))
  {
    assert row'[i] == r;
    forall x | x in row && x != row[i] ensures x in row' {
      var j :| 0 <= j < |row| && row[j] == x;
      assert row'[j] == x;
    }
  }

  lemma FullMissStack(s: Lru, l: Row, k: nat, r: Page)
    requires Sized(s, k) && s.number >= k && |l| >= k && s.stack == l[..k] && r !in s.page && r !in l[..k]
    ensures Step(s, r).stack == [r] + l[..k - 1]
    ensures |Touch(l, r)| >= k && Touch(l, r)[..k] == [r] + l[..k - 1]
  {
    assert l[..k] == l[..k - 1] + [l[k - 1]];
    WithoutPrefix(l, r, k - 1);
    var stack1 := [r] + s.stack[..k - 1];
    assert stack1[0] == r;
    assert IndexOf(stack1, r) == 0;
    assert stack1[..0] == [] && stack1 == [r] + stack1[1..];
  }

  // A fault with all frames in use evicts the least recently used page.
  lemma FullMiss(s: Lru, l: Row, k: nat, r: Page)
    requires Sized(s, k) && Lists(s, l, k) && Unique(l) && |l| >= k && r !in s.page
    requires forall x :: x in l ==> x >= 0
    ensures Lists(Step(s, r), Touch(l, r), k)
    ensures l[k - 1] in s.page && Step(s, r).page == s.page[IndexOf(s.page, l[k - 1]) := r]
  {
    var v := l[k - 1];
    assert l[..k] == l[..k - 1] + [v];
    assert v in l;
    var i := IndexOf(s.page, v);
    FullMissStack(s, l, k, r);
    LoadedRow(s.page, k, i, r);
    SameMembers(s.page, s.page[i := r], i, r);
    assert v !in l[..k - 1];
  }

  // After n references the stack lists the resident pages by recency.
  ghost predicate InOrder(refs: seq<Page>, k: nat, n: nat)
    requires k >= 1 && n <= |refs|
  {
    Lists(Run(refs, k, n), Recency(refs, n), k)
  }

  // Reference t does no harm: while frames are free, only the least recently
  // used of the resident pages may be referenced again.
  ghost predicate FillOk(refs: seq<Page>, k: nat, t: nat)
    requires t < |refs|
  {
    var l := Recency(refs, t);
    |l| < k && refs[t] in l ==> refs[t] == l[|l| - 1]
  }

  lemma ListsStep(s: Lru, l: Row, k: nat, r: Page)
    requires Sized(s, k) && Lists(s, l, k) && Unique(l) && forall x :: x in l ==> x >= 0
    ensures Lists(Step(s, r), Touch(l, r), k) <==> (|l| < k && r in l ==> r == l[|l| - 1])
  {
    if |l| < k {
      assert l[..|l|] == l;
      if r in s.page { FillHit(s, l, k, r); } else { FillMiss(s, l, k, r); }
    } else {
      if r in s.page { FullHit(s, l, k, r); } else { FullMiss(s, l, k, r); }
    }
  }

  lemma OrderStep(refs: seq<Page>, k: nat, n: nat)
    requires k >= 1 && n < |refs| && InOrder(refs, k, n)
    ensures InOrder(refs, k, n + 1) <==> FillOk(refs, k, n)
  {
    RecencyUnique(refs, n);
    RunNext(refs, k, n);
    ListsStep(Run(refs, k, n), Recency(refs, n), k, refs[n]);
  }

  lemma StartInOrder(refs: seq<Page>, k: nat)
    requires k >= 1
    ensures InOrder(refs, k, 0)
  {
  }

  lemma {:induction false} FillOkKeepsOrder(refs: seq<Page>, k: nat, n: nat)
    requires k >= 1 && n <= |refs| && forall t :: 0 <= t < n ==> FillOk(refs, k, t)
    ensures InOrder(refs, k, n)
  {
    if n == 0 {
      StartInOrder(refs, k);
    } else {
      FillOkKeepsOrder(refs, k, n - 1);
      assert FillOk(refs, k, n - 1);
      OrderStep(refs, k, n - 1);
    }
  }

  // The stack is in order throughout a run if and only if no reference of the
  // fill phase is to a resident page other than the least recently used one.
  lemma StackInOrderIff(refs: seq<Page>, k: nat)
    requires k >= 1
    ensures (forall n :: 0 <= n <= |refs| ==> InOrder(refs, k, n)) <==>
      (forall t :: 0 <= t < |refs| ==> FillOk(refs, k, t))
  {
    if forall t :: 0 <= t < |refs| ==> FillOk(refs, k, t) {
      forall n | 0 <= n <= |refs| ensures InOrder(refs, k, n) {
        FillOkKeepsOrder(refs, k, n);
      }
    }
    if forall n :: 0 <= n <= |refs| ==> InOrder(refs, k, n) {
      forall t | 0 <= t < |refs| ensures FillOk(refs, k, t) {
        assert InOrder(refs, k, t) && InOrder(refs, k, t + 1);
        OrderStep(refs, k, t);
      }
    }
  }

  // A run on which the order is lost: with three frames, the references 0 1 1
  // leave the stack as 1 1 0, and page 0 is no longer listed after page 1.
  lemma OrderIsLost(refs: seq<Page>)
    requires refs == [0, 1, 1]
    ensures InOrder(refs, 3, 2) && !FillOk(refs, 3, 2) && !InOrder(refs, 3, 3)
  {
    assert Recency(refs, 0) == [] && Recency(refs, 1) == [0];
    WithoutAbsent([0], 1);
    assert Recency(refs, 2) == [1, 0];
    FillOkKeepsOrder(refs, 3, 2);
    OrderStep(refs, 3, 2);
  }

  // Every victim of an ordered run is the least recently used resident page.
  lemma VictimIsLeastRecent(refs: seq<Page>, k: nat, n: nat)
    requires k >= 1 && n < |refs| && InOrder(refs, k, n) && refs[n] !in Run(refs, k, n).page
    ensures var s, l := Run(refs, k, n), Recency(refs, n);
      if |l| < k then Run(refs, k, n + 1).page == s.page[|l| := refs[n]]
      else l[k - 1] in s.page && Run(refs, k, n + 1).page == s.page[IndexOf(s.page, l[k - 1]) := refs[n]]
  {
    RecencyUnique(refs, n);
    if |Recency(refs, n)| >= k {
      FullMiss(Run(refs, k, n), Recency(refs, n), k, refs[n]);
    }
  }

  // In particular the fill phase does no harm when the first k references differ.
  lemma DistinctStart(refs: seq<Page>, k: nat, t: nat)
    requires t < |refs| && forall i, j :: 0 <= i < j < k && j < |refs| ==> refs[i] != refs[j]
    ensures FillOk(refs, k, t)
  {
    RecencySize(refs, k, t);
    RecencyMembers(refs, t);
  }

  lemma {:induction false} RecencySize(refs: seq<Page>, k: nat, t: nat)
    requires t <= |refs| && forall i, j :: 0 <= i < j < k && j < |refs| ==> refs[i] != refs[j]
    ensures |Recency(refs, t)| >= Min(t, k)
  {
    if t > 0 {
      RecencySize(refs, k, t - 1);
      RecencyMembers(refs, t - 1);
      var l, r := Recency(refs, t - 1), refs[t - 1];
      RecencyUnique(refs, t - 1);
      if r in l {
        var i :| 0 <= i < |l| && l[i] == r;
        WithoutAt(l, i);
      } else {
        WithoutAbsent(l, r);
      }
    }
  }

  lemma {:induction false} RecencyMembers(refs: seq<Page>, t: nat)
    requires t <= |refs|
    ensures forall x :: x in Recency(refs, t) <==> exists i :: 0 <= i < t && refs[i] == x
  {
    if t > 0 {
      RecencyMembers(refs, t - 1);
    }
  }

  // ---- LRU as a schedule ------------------------------------------------------

  lemma FaultStep(s: Lru, r: Page)
    requires Sized(s, |s.page|)
    ensures Step(s, r).number == s.number + (if r in Residents(s.page) then 0 else 1)
  {
  }

  // A page reference t brings in is loaded: a frame is free or the stack's last
  // entry, the victim to be, is resident.
  ghost predicate Loads(refs: seq<Page>, k: nat, t: nat)
    requires k >= 1 && t < |refs|
  {
    var s := Run(refs, k, t);
    refs[t] in s.page || s.number < k || s.stack[k - 1] in s.page
  }

  lemma StepPage(s: Lru, k: nat, r: Page)
    requires Sized(s, k)
    ensures var t := Step(s, r);
      if r in s.page then t.page == s.page && t.number == s.number
      else
        && t.number == s.number + 1
        && t.page == if s.number < k then s.page[s.number := r]
                     else if s.stack[k - 1] in s.page then s.page[IndexOf(s.page, s.stack[k - 1]) := r]
                     else s.page
  {
  }

  lemma StepServesIff(s: Lru, k: nat, r: Page)
    requires Sized(s, k) && Filled(s.page, Min(s.number, k))
    ensures Filled(Step(s, r).page, Min(Step(s, r).number, k))
    ensures Serves(k, Residents(s.page), r, Residents(Step(s, r).page)) <==>
      r in s.page || s.number < k || s.stack[k - 1] in s.page
  {
    StepPage(s, k, r);
    FilledSize(s.page, Min(s.number, k));
    if r !in s.page && (s.number < k || s.stack[k - 1] in s.page) {
      LoadServes(s.page, s.number, if s.number < k then s.number else IndexOf(s.page, s.stack[k - 1]), r);
    }
  }

  lemma {:induction false} FramesFilled(refs: seq<Page>, k: nat, n: nat)
    requires k >= 1 && n <= |refs|
    ensures Filled(Run(refs, k, n).page, Min(Run(refs, k, n).number, k))
  {
    if n > 0 {
      FramesFilled(refs, k, n - 1);
      StepServesIff(Run(refs, k, n - 1), k, refs[n - 1]);
    }
  }

  lemma TableBefore(refs: seq<Page>, k: nat, rows: seq<Row>, t: nat)
    requires k >= 1 && RowsLog(refs, k, rows, |refs|) && t <= |refs|
    ensures SetsOf(rows)[t] == Residents(Run(refs, k, t).page)
  {
    assert t > 0 ==> RowAt(refs, k, rows, t - 1);
  }

  ghost predicate SetAt(refs: seq<Page>, k: nat, sets: seq<set<int>>, t: nat)
    requires k >= 1 && t <= |refs| && t < |sets|
  {
    sets[t] == Residents(Run(refs, k, t).page)
  }

  lemma {:induction false} RunFaults(refs: seq<Page>, k: nat, sets: seq<set<int>>, n: nat)
    requires k >= 1 && n <= |refs| < |sets| && forall t :: 0 <= t < n ==> SetAt(refs, k, sets, t)
    ensures Faults(refs, sets, n) == Run(refs, k, n).number
  {
    if n > 0 {
      RunFaults(refs, k, sets, n - 1);
      assert SetAt(refs, k, sets, n - 1);
      RunNext(refs, k, n - 1);
      FaultStep(Run(refs, k, n - 1), refs[n - 1]);
    }
  }

  lemma TableFaults(refs: seq<Page>, k: nat, rows: seq<Row>, n: nat)
    requires k >= 1 && RowsLog(refs, k, rows, |refs|) && n <= |refs|
    ensures Faults(refs, SetsOf(rows), n) == Run(refs, k, n).number
  {
    forall t | 0 <= t < n ensures SetAt(refs, k, SetsOf(rows), t) {
      TableBefore(refs, k, rows, t);
    }
    RunFaults(refs, k, SetsOf(rows), n);
  }

  lemma TableServesIff(refs: seq<Page>, k: nat, rows: seq<Row>, t: nat)
    requires k >= 1 && RowsLog(refs, k, rows, |refs|) && t < |refs|
    ensures ServesAt(refs, k, SetsOf(rows), t) <==> Loads(refs, k, t)
  {
    FramesFilled(refs, k, t);
    StepServesIff(Run(refs, k, t), k, refs[t]);
    TableBefore(refs, k, rows, t);
    TableBefore(refs, k, rows, t + 1);
  }

  // The table LRU prints is a schedule if and only if every page it counts as
  // brought in is loaded; its count is the table's faults in any case.
  lemma LruScheduleIff(refs: seq<Page>, k: nat, rows: seq<Row>)
    requires k >= 1 && RowsLog(refs, k, rows, |refs|)
    ensures Schedule(refs, k, SetsOf(rows)) <==> forall t :: 0 <= t < |refs| ==> Loads(refs, k, t)
    ensures Faults(refs, SetsOf(rows), |refs|) == Run(refs, k, |refs|).number
  {
    TableBefore(refs, k, rows, 0);
    forall t | 0 <= t < |refs| ensures ServesAt(refs, k, SetsOf(rows), t) <==> Loads(refs, k, t) {
      TableServesIff(refs, k, rows, t);
    }
    TableFaults(refs, k, rows, |refs|);
  }

  // A harmless fill phase is enough.
  lemma FillOkLoads(refs: seq<Page>, k: nat, t: nat)
    requires k >= 1 && t < |refs| && forall i :: 0 <= i < |refs| ==> FillOk(refs, k, i)
    ensures Loads(refs, k, t)
  {
    FillOkKeepsOrder(refs, k, t);
    var s, l := Run(refs, k, t), Recency(refs, t);
    if refs[t] !in s.page {
      VictimIsLeastRecent(refs, k, t);
      assert |l| >= k ==> s.stack == l[..k];
    }
  }

  lemma LruSchedule(refs: seq<Page>, k: nat, rows: seq<Row>)
    requires k >= 1 && RowsLog(refs, k, rows, |refs|) && forall t :: 0 <= t < |refs| ==> FillOk(refs, k, t)
    ensures Schedule(refs, k, SetsOf(rows))
  {
    forall t | 0 <= t < |refs| ensures Loads(refs, k, t) {
      FillOkLoads(refs, k, t);
    }
    LruScheduleIff(refs, k, rows);
  }

  // ---- One more frame -------------------------------------------------------

  // What is resident after one reference.
  lemma StepResidents(s: Lru, k: nat, r: Page)
    requires Sized(s, k) && Filled(s.page, Min(s.number, k))
    ensures Residents(Step(s, r).page) ==
      if r in s.page then Residents(s.page)
      else if s.number < k then Residents(s.page) + {r}
      else if s.stack[k - 1] in s.page then Residents(s.page) - {s.stack[k - 1]} + {r}
      else Residents(s.page)
  {
    StepPage(s, k, r);
    if r !in s.page && (s.number < k || s.stack[k - 1] in s.page) {
      LoadedRow(s.page, Min(s.number, k), if s.number < k then s.number else IndexOf(s.page, s.stack[k - 1]), r);
    }
  }

  // With one frame more, t misses r with full frames, and either evicts a page
  // that s keeps, or loses r while s loads it.
  predicate Parts(s: Lru, t: Lru, k: nat, r: Page)
    requires Sized(s, k) && Sized(t, k + 1)
  {
    && r !in t.page && t.number > k
    && if t.stack[k] in t.page
       then t.stack[k] in s.page && !(s.number >= k && s.stack[k - 1] == t.stack[k])
       else s.number < k || s.stack[k - 1] in s.page
  }

  lemma StepInclusionIff(s: Lru, t: Lru, k: nat, r: Page)
    requires Sized(s, k) && Filled(s.page, Min(s.number, k)) && Sized(t, k + 1)
      && Filled(t.page, Min(t.number, k + 1))
    requires Residents(s.page) <= Residents(t.page)
    ensures Residents(Step(s, r).page) <= Residents(Step(t, r).page) <==> !Parts(s, t, k, r)
  {
    StepResidents(s, k, r);
    StepResidents(t, k + 1, r);
    assert forall x :: x >= 0 ==>
      (x in Residents(s.page) <==> x in s.page) && (x in Residents(t.page) <==> x in t.page);
    assert t.number > k && t.stack[k] in t.page ==> t.stack[k] >= 0;
  }

  ghost predicate Included(refs: seq<Page>, k: nat, n: nat)
    requires k >= 1 && n <= |refs|
  {
    Residents(Run(refs, k, n).page) <= Residents(Run(refs, k + 1, n).page)
  }

  ghost predicate PartsAt(refs: seq<Page>, k: nat, n: nat)
    requires k >= 1 && n < |refs|
  {
    Parts(Run(refs, k, n), Run(refs, k + 1, n), k, refs[n])
  }

  lemma InclusionStep(refs: seq<Page>, k: nat, n: nat)
    requires k >= 1 && n < |refs| && Included(refs, k, n)
    ensures Included(refs, k, n + 1) <==> !PartsAt(refs, k, n)
  {
    FramesFilled(refs, k, n);
    FramesFilled(refs, k + 1, n);
    RunNext(refs, k, n);
    RunNext(refs, k + 1, n);
    StepInclusionIff(Run(refs, k, n), Run(refs, k + 1, n), k, refs[n]);
  }

  lemma {:induction false} NoPartIncluded(refs: seq<Page>, k: nat, n: nat)
    requires k >= 1 && n <= |refs| && forall i :: 0 <= i < n ==> !PartsAt(refs, k, i)
    ensures Included(refs, k, n)
  {
    if n > 0 {
      NoPartIncluded(refs, k, n - 1);
      InclusionStep(refs, k, n - 1);
    }
  }

  // The pages resident with k frames are resident with k + 1 throughout a run if
  // and only if no reference parts the two.
  lemma InclusionIff(refs: seq<Page>, k: nat)
    requires k >= 1
    ensures (forall n :: 0 <= n <= |refs| ==> Included(refs, k, n)) <==>
      (forall i :: 0 <= i < |refs| ==> !PartsAt(refs, k, i))
  {
    if forall n :: 0 <= n <= |refs| ==> Included(refs, k, n) {
      forall i | 0 <= i < |refs| ensures !PartsAt(refs, k, i) {
        assert Included(refs, k, i) && Included(refs, k, i + 1);
        InclusionStep(refs, k, i);
      }
    }
    if forall i :: 0 <= i < |refs| ==> !PartsAt(refs, k, i) {
      forall n | 0 <= n <= |refs| ensures Included(refs, k, n) {
        NoPartIncluded(refs, k, n);
      }
    }
  }

  // While it lasts, the extra frame adds no fault.
  lemma {:induction false} IncludedFaults(refs: seq<Page>, k: nat, n: nat)
    requires k >= 1 && n <= |refs| && forall i :: 0 <= i < n ==> Included(refs, k, i)
    ensures Run(refs, k + 1, n).number <= Run(refs, k, n).number
  {
    if n > 0 {
      IncludedFaults(refs, k, n - 1);
      assert Included(refs, k, n - 1);
      FaultStep(Run(refs, k, n - 1), refs[n - 1]);
      FaultStep(Run(refs, k + 1, n - 1), refs[n - 1]);
    }
  }

  // Ordered stacks never part the two: the larger one's victim is a page the
  // smaller one does not hold.
  lemma OrderedNeverParts(s: Lru, t: Lru, l: Row, k: nat, r: Page)
    requires Sized(s, k) && Sized(t, k + 1) && Lists(s, l, k) && Lists(t, l, k + 1) && Unique(l)
    requires forall x :: x in l ==> x >= 0
    ensures !Parts(s, t, k, r)
  {
    if t.number > k {
      assert |l| > k && t.stack[k] == l[k];
      assert l[k] in l[..k + 1] && l[k] !in l[..k] && l[k] in l;
      assert l[k] in t.page && l[k] !in s.page;
    }
  }

  // So after a harmless fill phase inclusion holds, and one more frame never
  // adds a fault.
  lemma Inclusion(refs: seq<Page>, k: nat, more: nat, n: nat)
    requires 1 <= k && more == k + 1 && n <= |refs| && forall t :: 0 <= t < n ==> FillOk(refs, more, t)
    ensures Residents(Run(refs, k, n).page) <= Residents(Run(refs, more, n).page)
    ensures Run(refs, more, n).number <= Run(refs, k, n).number
  {
    forall i | 0 <= i < n ensures !PartsAt(refs, k, i) {
      FillOkNeverParts(refs, k, more, i);
    }
    forall i | 0 <= i <= n ensures Included(refs, k, i) {
      NoPartIncluded(refs, k, i);
    }
    assert Included(refs, k, n);
    IncludedFaults(refs, k, n);
  }

  lemma FillOkNeverParts(refs: seq<Page>, k: nat, more: nat, n: nat)
    requires k >= 1 && more == k + 1 && n < |refs| && forall t :: 0 <= t < n ==> FillOk(refs, more, t)
    ensures !PartsAt(refs, k, n)
  {
    forall t | 0 <= t < n ensures FillOk(refs, k, t) {
      assert FillOk(refs, more, t);
    }
    FillOkKeepsOrder(refs, k, n);
    FillOkKeepsOrder(refs, more, n);
    RecencyUnique(refs, n);
    OrderedNeverParts(Run(refs, k, n), Run(refs, more, n), Recency(refs, n), k, refs[n]);
  }
}
