// OPT and vector_update: the table `arr` of distances to the next use, aged at
// every reference, and the victim chosen from it.
module Opt {
  import opened Paging

  // j is the last reference to its page before time i.
  predicate LastBefore(refs: seq<Page>, j: nat, i: nat)
    requires j < |refs|
  {
    forall l :: j < l < i && l < |refs| ==> refs[l] != refs[j]
  }

  // Entry j of the table when reference i is about to be handled and s is
  // resident; `aged` says whether the ageing pass of step i is over.
  function Entry(refs: seq<Page>, i: nat, s: set<int>, aged: bool, j: nat): int
    requires j < |refs|
  {
    if j >= i then NextUse(refs, j + 1, refs[j]) - j
    else if refs[j] in s && LastBefore(refs, j, if aged then i + 1 else i)
    then NextUse(refs, i, refs[j]) - i + (if aged then 0 else 1)
    else -1
  }

  ghost predicate Table(refs: seq<Page>, i: nat, s: set<int>, aged: bool, arr: seq<int>) {
    |arr| == |refs| && forall j :: 0 <= j < |refs| ==> arr[j] == Entry(refs, i, s, aged, j)
  }

  method Distances(refs: seq<Page>) returns (arr: array<int>)
    ensures fresh(arr) && Table(refs, 0, {}, false, arr[..])
  {
    arr := new int[|refs|];
    for i := 0 to |refs|
      invariant forall j :: 0 <= j < i ==> arr[j] == Entry(refs, 0, {}, false, j)
    {
      var cnt := 1;
      var j := i + 1;
      while j < |refs|
        invariant i < j <= |refs| && cnt == j - i
        invariant NextUse(refs, i + 1, refs[i]) == NextUse(refs, j, refs[i])
      {
        if refs[i] == refs[j] { break; }
        cnt := cnt + 1;
        j := j + 1;
      }
      arr[i] := cnt;
    }
  }

  // The two ageing passes of step i.
  method Age(refs: seq<Page>, arr: array<int>, i: nat, ghost s: set<int>)
    requires i < |refs| && Table(refs, i, s, false, arr[..])
    modifies arr
    ensures Table(refs, i, s, true, arr[..])
  {
    for j := 0 to i
      invariant arr.Length == |refs|
      invariant forall l :: 0 <= l < |refs| ==>
        arr[l] == if l < j && !LastBefore(refs, l, i + 1) then -1 else Entry(refs, i, s, false, l)
    {
      var k := j + 1;
      while k <= i && refs[j] != refs[k]
        invariant j < k <= i + 1 && LastBefore(refs, j, k)
      {
        k := k + 1;
      }
      if k <= i {
        arr[j] := -1;
      }
    }
    for j := 0 to i
      invariant arr.Length == |refs|
      invariant forall l :: 0 <= l < |refs| ==>
        arr[l] == if l < j || i <= l then Entry(refs, i, s, true, l)
                  else if !LastBefore(refs, l, i + 1) then -1 else Entry(refs, i, s, false, l)
    {
      assert LastBefore(refs, j, i + 1) ==> refs[i] != refs[j];
      if arr[j] > 1 {
        arr[j] := arr[j] - 1;
      }
    }
  }

  // First position of the largest entry.
  function ArgMax(s: seq<int>): (m: nat)
    requires s != []
    ensures m < |s| && forall j :: 0 <= j < |s| ==> s[j] <= s[m]
    ensures forall j :: 0 <= j < m ==> s[j] < s[m]
  {
    if |s| == 1 then 0
    else
      var m := ArgMax(s[..|s| - 1]);
      assert forall j :: 0 <= j < |s| - 1 ==> s[..|s| - 1][j] == s[j];
      if s[m] < s[|s| - 1] then |s| - 1 else m
  }

  // vector_update once all frames are in use
  method Replace(vector: array<int>, arr: array<int>, refs: seq<Page>, i: nat)
    requires 0 < i < |refs| && arr.Length == |refs| && vector != arr
    modifies vector, arr
    ensures forall f :: 0 <= f < vector.Length ==>
      vector[f] == if old(vector[f]) == refs[ArgMax(old(arr[..i]))] then refs[i] else old(vector[f])
    ensures arr[..] == if refs[ArgMax(old(arr[..i]))] in old(vector[..])
                       then old(arr[..])[ArgMax(old(arr[..i])) := -1] else old(arr[..])
  {
    var m := 0;
    for j := 0 to i
      invariant m < i && m == if j == 0 then 0 else ArgMax(arr[..j])
    {
      assert arr[..j + 1][..j] == arr[..j];
      if arr[m] < arr[j] { m := j; }
    }
    for f := 0 to vector.Length
      invariant forall g :: 0 <= g < vector.Length ==>
        vector[g] == if g < f && old(vector[g]) == refs[m] then refs[i] else old(vector[g])
      invariant arr[..] == if refs[m] in old(vector[..f]) then old(arr[..])[m := -1] else old(arr[..])
    {
      assert old(vector[..f + 1]) == old(vector[..f]) + [old(vector[f])];
      if vector[f] == refs[m] {
        vector[f] := refs[i];
        arr[m] := -1;
      }
    }
    assert old(vector[..]) == old(vector[..vector.Length]);
  }

  // ---- The victim is the page used farthest in the future -----------------

  ghost predicate Referenced(refs: seq<Page>, i: nat, s: set<int>) {
    forall x :: x in s ==> exists j :: 0 <= j < i && j < |refs| && refs[j] == x
  }

  lemma {:induction false} LastReference(refs: seq<Page>, i: nat, x: int) returns (l: nat)
    requires i < |refs| && refs[i] != x && exists j :: 0 <= j < i && refs[j] == x
    ensures l < i && refs[l] == x && LastBefore(refs, l, i + 1)
  {
    l := i - 1;
    while refs[l] != x
      invariant l < i && exists j :: 0 <= j <= l && refs[j] == x
      invariant forall m :: l < m <= i ==> refs[m] != x
      decreases l
    {
      l := l - 1;
    }
  }

  // Positive entries of the aged table are exactly the last references of the
  // resident pages other than the one being referenced, and hold the distance
  // to the next use.
  lemma AgedEntries(refs: seq<Page>, i: nat, s: set<int>, arr: seq<int>, j: nat)
    requires j < i < |refs| && Table(refs, i, s, true, arr)
    ensures arr[j] > 0 <==> refs[j] in s && refs[j] != refs[i] && LastBefore(refs, j, i)
    ensures arr[j] > 0 ==> arr[j] == NextUse(refs, i, refs[j]) - i
  {
  }

  lemma VictimIsFarthest(refs: seq<Page>, i: nat, s: set<int>, arr: seq<int>, some: int)
    requires 0 < i < |refs| && Table(refs, i, s, true, arr)
    requires some in s && refs[i] !in s && Referenced(refs, i, s)
    ensures var m := ArgMax(arr[..i]);
      refs[m] in s && FarthestOf(refs, i, s, refs[m]) && LastBefore(refs, m, i + 1)
  {
    var m := ArgMax(arr[..i]);
    assert arr[..i][m] == arr[m];
    forall x | x in s ensures 0 < NextUse(refs, i, x) - i <= arr[m] {
      var l := LastReference(refs, i, x);
      assert arr[..i][l] == arr[l] == Entry(refs, i, s, true, l);
    }
    assert arr[m] == Entry(refs, i, s, true, m);
    assert 0 < NextUse(refs, i, some) - i <= arr[m];
  }

  // Once a page with room for it is loaded (or hit), the table serves step i + 1.
  lemma TableAfterLoad(refs: seq<Page>, i: nat, s: set<int>, arr: seq<int>)
    requires i < |refs| && Table(refs, i, s, true, arr)
    ensures Table(refs, i + 1, s + {refs[i]}, false, arr)
  {
  }

  lemma TableAfterReplace(refs: seq<Page>, i: nat, s: set<int>, arr: seq<int>, m: nat)
    requires m < i < |refs| && Table(refs, i, s, true, arr) && refs[i] !in s
    requires LastBefore(refs, m, i + 1)
    ensures Table(refs, i + 1, s - {refs[m]} + {refs[i]}, false, arr[m := -1])
  {
  }

  // ---- OPT ----------------------------------------------------------------

  lemma ReplacedRow(row: Row, row': Row, v: int, r: Page)
    requires Filled(row, |row|) && v in row && r !in row && |row'| == |row|
    requires forall f :: 0 <= f < |row| ==> row'[f] == if row[f] == v then r else row[f]
    ensures Filled(row', |row|) && Residents(row') == Residents(row) - {v} + {r}
  {
  }

  // The victim, the table and the farthest-page condition for a full frame set.
  lemma VictimOutcome(refs: seq<Page>, i: nat, row: Row, arr: seq<int>)
    requires i < |refs| && |row| >= 1 && Filled(row, |row|) && refs[i] !in row
    requires Table(refs, i, Residents(row), true, arr) && Referenced(refs, i, Residents(row))
    ensures i > 0
    ensures var m := ArgMax(arr[..i]);
      var s' := Residents(row) - {refs[m]} + {refs[i]};
      refs[m] in row && Table(refs, i + 1, s', false, arr[m := -1]) && Farthest(refs, |row|, i, Residents(row), s')
  {
    var s := Residents(row);
    assert row[0] in s;
    FilledSize(row, |row|);
    VictimIsFarthest(refs, i, s, arr, row[0]);
    TableAfterReplace(refs, i, s, arr, ArgMax(arr[..i]));
  }

  // The same for a free frame.
  lemma LoadOutcome(refs: seq<Page>, i: nat, row: Row, number: nat, arr: seq<int>)
    requires i < |refs| && number < |row| && Filled(row, number) && refs[i] !in row
    requires Table(refs, i, Residents(row), true, arr)
    ensures var row' := row[number := refs[i]];
      && Filled(row', number + 1) && Table(refs, i + 1, Residents(row'), false, arr)
      && Farthest(refs, |row|, i, Residents(row), Residents(row'))
  {
    FilledSize(row, number);
    TableAfterLoad(refs, i, Residents(row), arr);
    LoadedRow(row, number, number, refs[i]);
    assert Residents(row) - {row[number]} == Residents(row);
  }

  // The same as the in-place code leaves it.
  lemma ReplaceOutcome(refs: seq<Page>, i: nat, row: Row, row': Row, arr: seq<int>, arr': seq<int>)
    requires i < |refs| && |row| >= 1 && Filled(row, |row|) && refs[i] !in row && |row'| == |row|
    requires Table(refs, i, Residents(row), true, arr) && Referenced(refs, i, Residents(row)) && i > 0
    requires var v := refs[ArgMax(arr[..i])];
      && (forall f :: 0 <= f < |row| ==> row'[f] == if row[f] == v then refs[i] else row[f])
      && arr' == if v in row then arr[ArgMax(arr[..i]) := -1] else arr
    ensures Filled(row', |row|) && Table(refs, i + 1, Residents(row'), false, arr')
    ensures Farthest(refs, |row|, i, Residents(row), Residents(row'))
  {
    VictimOutcome(refs, i, row, arr);
    ReplacedRow(row, row', refs[ArgMax(arr[..i])], refs[i]);
  }

  lemma SomethingReferenced(refs: seq<Page>, i: nat, row: Row)
    requires |row| >= 1 && Filled(row, |row|) && Referenced(refs, i, Residents(row))
    ensures i > 0
  {
    assert row[0] in Residents(row);
  }

  // vector_update
  method VectorUpdate(vector: array<int>, number: nat, refs: seq<Page>, arr: array<int>, i: nat)
    requires i < |refs| && vector.Length >= 1 && vector != arr
    requires Filled(vector[..], Min(number, vector.Length)) && refs[i] !in vector[..]
    requires Table(refs, i, Residents(vector[..]), true, arr[..]) && Referenced(refs, i, Residents(vector[..]))
    modifies vector, arr
    ensures Farthest(refs, vector.Length, i, old(Residents(vector[..])), Residents(vector[..]))
    ensures Filled(vector[..], Min(number + 1, vector.Length))
    ensures Table(refs, i + 1, Residents(vector[..]), false, arr[..])
  {
    ghost var row, t := vector[..], arr[..];
    if number < vector.Length {
      LoadOutcome(refs, i, row, number, t);
      vector[number] := refs[i];
      assert vector[..] == row[number := refs[i]];
    } else {
      SomethingReferenced(refs, i, row);
      Replace(vector, arr, refs, i);
      ReplaceOutcome(refs, i, row, vector[..], t, arr[..]);
    }
  }

  // The body of OPT's main loop, apart from printing.
  method Step(refs: seq<Page>, vector: array<int>, arr: array<int>, i: nat, number: nat) returns (fault: bool)
    requires i < |refs| && vector.Length >= 1 && vector != arr
    requires Filled(vector[..], Min(number, vector.Length)) && Referenced(refs, i, Residents(vector[..]))
    requires Table(refs, i, Residents(vector[..]), false, arr[..])
    modifies vector, arr
    ensures fault <==> refs[i] !in old(Residents(vector[..]))
    ensures Farthest(refs, vector.Length, i, old(Residents(vector[..])), Residents(vector[..]))
    ensures Filled(vector[..], Min(if fault then number + 1 else number, vector.Length))
    ensures Referenced(refs, i + 1, Residents(vector[..]))
    ensures Table(refs, i + 1, Residents(vector[..]), false, arr[..])
  {
    ghost var s := Residents(vector[..]);
    Age(refs, arr, i, s);
    var hit := Find(vector, refs[i]);
    fault := !hit;
    if hit {
      TableAfterLoad(refs, i, s, arr[..]);
      assert s + {refs[i]} == s;
    } else {
      VectorUpdate(vector, number, refs, arr, i);
      ReferencedStep(refs, i, vector.Length, s, Residents(vector[..]));
    }
  }

  lemma ReferencedStep(refs: seq<Page>, i: nat, k: nat, s: set<int>, s': set<int>)
    requires i < |refs| && Referenced(refs, i, s) && Farthest(refs, k, i, s, s')
    ensures Referenced(refs, i + 1, s')
  {
  }

  // What is resident before each of the first i references, the marks printed
  // for them and their count.
  ghost predicate Log(refs: seq<Page>, k: nat, sets: seq<set<int>>, marks: seq<bool>, faults: nat, i: nat) {
    && |sets| == i + 1 && |marks| == i <= |refs| && sets[0] == {}
    && |sets[i]| <= k
    && (forall t :: 0 <= t < i ==> FarthestAt(refs, k, sets, t))
    && (forall t {:trigger marks[t]} :: 0 <= t < i ==> (marks[t] <==> refs[t] !in sets[t]))
    && faults == Faults(refs, sets, i)
  }

  lemma ScheduleStep(refs: seq<Page>, k: nat, sets: seq<set<int>>, i: nat, s: set<int>)
    requires i < |refs| && |sets| == i + 1 && |sets[i]| <= k && Farthest(refs, k, i, sets[i], s)
    requires forall t :: 0 <= t < i ==> FarthestAt(refs, k, sets, t)
    ensures forall t :: 0 <= t < i + 1 ==> FarthestAt(refs, k, sets + [s], t)
  {
    forall t | 0 <= t < i + 1 ensures FarthestAt(refs, k, sets + [s], t) {
      if t < i { assert FarthestAt(refs, k, sets, t); }
    }
  }

  lemma FaultsStep(refs: seq<Page>, sets: seq<set<int>>, i: nat, s: set<int>)
    requires i < |refs| && |sets| == i + 1
    ensures Faults(refs, sets + [s], i + 1) == Faults(refs, sets, i) + (if refs[i] in sets[i] then 0 else 1)
  {
    assert (sets + [s])[..i] == sets[..i];
    FaultsPrefix(refs, sets, sets + [s], i);
  }

  lemma LogStep(refs: seq<Page>, k: nat, sets: seq<set<int>>, marks: seq<bool>, faults: nat, i: nat, s: set<int>)
    requires Log(refs, k, sets, marks, faults, i) && i < |refs| && |s| <= k && Farthest(refs, k, i, sets[i], s)
    ensures var fault := refs[i] !in sets[i];
      Log(refs, k, sets + [s], marks + [fault], if fault then faults + 1 else faults, i + 1)
  {
    ScheduleStep(refs, k, sets, i, s);
    FaultsStep(refs, sets, i, s);
  }

  lemma SetsMatch(sets: seq<set<int>>, rows: seq<Row>)
    requires |sets| == |rows| + 1 && sets[0] == {}
    requires forall t {:trigger rows[t]} :: 0 <= t < |rows| ==> sets[t + 1] == Residents(rows[t])
    ensures sets == SetsOf(rows)
  {
  }

  // What the loop of OPT knows before reference i.
  ghost predicate Ready(refs: seq<Page>, k: nat, i: nat, row: Row, number: nat, arr: seq<int>) {
    && i <= |refs| && |row| == k && |arr| == |refs| && Filled(row, Min(number, k))
    && Referenced(refs, i, Residents(row)) && Table(refs, i, Residents(row), false, arr)
  }

  // The rows printed so far against what is resident after them.
  ghost predicate RowsMatch(sets: seq<set<int>>, rows: seq<Row>) {
    |sets| == |rows| + 1 && forall t {:trigger rows[t]} :: 0 <= t < |rows| ==> sets[t + 1] == Residents(rows[t])
  }

  // Reference i of the loop, with what the ghost log records of it.
  method Serve(refs: seq<Page>, vector: array<int>, arr: array<int>, i: nat, number: nat,
               ghost sets: seq<set<int>>, ghost marks: seq<bool>) returns (fault: bool, faults: nat)
    requires i < |refs| && vector.Length >= 1 && vector != arr
    requires Ready(refs, vector.Length, i, vector[..], number, arr[..])
    requires Log(refs, vector.Length, sets, marks, number, i) && sets[i] == Residents(vector[..])
    modifies vector, arr
    ensures Ready(refs, vector.Length, i + 1, vector[..], faults, arr[..])
    ensures Log(refs, vector.Length, sets + [Residents(vector[..])], marks + [fault], faults, i + 1)
  {
    fault := Step(refs, vector, arr, i, number);
    faults := if fault then number + 1 else number;
    FilledSize(vector[..], Min(faults, vector.Length));
    LogStep(refs, vector.Length, sets, marks, number, i, Residents(vector[..]));
  }

  lemma LogIsOptimal(refs: seq<Page>, k: nat, sets: seq<set<int>>, marks: seq<bool>, faults: nat, rows: seq<Row>)
    requires k >= 1 && Log(refs, k, sets, marks, faults, |refs|) && RowsMatch(sets, rows)
    ensures sets == SetsOf(rows) && FarthestSchedule(refs, k, sets)
    ensures forall b :: Schedule(refs, k, b) ==> faults <= Faults(refs, b, |refs|)
  {
    SetsMatch(sets, rows);
    forall t | 0 <= t < |refs| ensures FarthestAt(refs, k, sets, t) { }
    forall b | Schedule(refs, k, b) ensures faults <= Faults(refs, b, |refs|) {
      FarthestIsOptimal(refs, k, sets, b);
    }
  }

  // OPT: the printed table is a farthest-next-use schedule, the marks and the
  // count are its faults, and no schedule with as many frames has fewer.
  method Opt(refs: seq<Page>, k: nat) returns (rows: seq<Row>, marks: seq<bool>, faults: nat)
    requires k >= 1
    ensures |rows| == |marks| == |refs| && FarthestSchedule(refs, k, SetsOf(rows))
    ensures forall t {:trigger marks[t]} :: 0 <= t < |refs| ==> (marks[t] <==> refs[t] !in SetsOf(rows)[t])
    ensures faults == Faults(refs, SetsOf(rows), |refs|)
    ensures forall b :: Schedule(refs, k, b) ==> faults <= Faults(refs, b, |refs|)
  {
    var vector := new int[k](_ => EMPTY);
    var arr := Distances(refs);
    faults, rows, marks := 0, [], [];
    assert Residents(vector[..]) == {};
    ghost var sets := [Residents(vector[..])];
    for i := 0 to |refs|
      invariant fresh(vector) && fresh(arr) && vector != arr
      invariant Ready(refs, k, i, vector[..], faults, arr[..])
      invariant Log(refs, k, sets, marks, faults, i) && sets[i] == Residents(vector[..])
      invariant |rows| == i && RowsMatch(sets, rows)
    {
      var fault;
      fault, faults := Serve(refs, vector, arr, i, faults, sets, marks);
      sets := sets + [Residents(vector[..])];
      rows, marks := rows + [vector[..]], marks + [fault];
    }
    LogIsOptimal(refs, k, sets, marks, faults, rows);
  }
}
