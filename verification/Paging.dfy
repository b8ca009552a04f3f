// Demand paging: reference strings, frame tables, schedules of resident sets,
// and the optimality of evicting the page whose next use is farthest away.
module Paging {
  // Pages are the digits at the even positions of the reference string.
  type Page = nat

  // A row of the printed table: one entry per frame, -1 for an empty frame.
  type Row = seq<int>

  const EMPTY := -1

  function Residents(row: Row): set<int> {
    set x | x in row && x != EMPTY
  }

  // The frames at the start.
  function Empty(k: nat): Row {
    seq(k, _ => EMPTY)
  }

  // What is resident before reference t, and the schedule a printed table
  // stands for.
  function Before(rows: seq<Row>, t: nat): set<int>
    requires t <= |rows|
  {
    if t == 0 then {} else Residents(rows[t - 1])
  }

  ghost function SetsOf(rows: seq<Row>): seq<set<int>> {
    seq(|rows| + 1, t requires 0 <= t <= |rows| => Before(rows, t))
  }

  // The frames hold n distinct pages, then nothing.
  ghost predicate Filled(row: Row, n: nat) {
    && n <= |row|
    && (forall i :: 0 <= i < n ==> row[i] >= 0)
    && (forall i :: n <= i < |row| ==> row[i] == EMPTY)
    && (forall i, j :: 0 <= i < j < n ==> row[i] != row[j])
  }

  lemma {:induction false} DistinctSize(s: seq<int>)
    requires forall i, j :: 0 <= i < j < |s| ==> s[i] != s[j]
    ensures |set x | x in s| == |s|
  {
    if s != [] {
      var n := |s| - 1;
      DistinctSize(s[..n]);
      assert s == s[..n] + [s[n]];
      assert (set x | x in s) == (set x | x in s[..n]) + {s[n]};
    }
  }

  lemma FilledSize(row: Row, n: nat)
    requires Filled(row, n)
    ensures |Residents(row)| == n
  {
    DistinctSize(row[..n]);
    assert row == row[..n] + row[n..];
    assert Residents(row) == set x | x in row[..n];
  }

  // Loading a page into the next free frame, or over another page.
  lemma LoadedRow(row: Row, n: nat, i: nat, r: Page)
    requires Filled(row, n) && i < |row| && r !in row && (i < n || i == n)
    ensures Filled(row[i := r], if i < n then n else n + 1)
    ensures Residents(row[i := r]) == Residents(row) - {row[i]} + {r}
  {
    var row' := row[i := r];
    assert row'[i] == r;
    forall x | x in row && x != row[i] ensures x in row' {
      var j :| 0 <= j < |row| && row[j] == x;
      assert row'[j] == x;
    }
    forall x | x in row' && x != r ensures x in row && (x != EMPTY ==> x != row[i]) {
      var j :| 0 <= j < |row'| && row'[j] == x;
      assert row[j] == x;
    }
  }

  function Min(a: nat, b: nat): nat { if a < b then a else b }

  // find
  method Find(frames: array<int>, page: Page) returns (found: bool)
    ensures found <==> page in frames[..]
  {
    for i := 0 to frames.Length
      invariant page !in frames[..i]
    {
      if frames[i] == page { return true; }
    }
    return false;
  }

  // ---- Schedules --------------------------------------------------------

  // One reference served with k frames: the page ends up resident, nothing else
  // is brought in.
  ghost predicate Serves(k: nat, before: set<int>, r: Page, after: set<int>) {
    r in after && after <= before + {r} && |after| <= k
  }

  // sets[t] is what is resident before reference t.
  ghost predicate Schedule(refs: seq<Page>, k: nat, sets: seq<set<int>>) {
    && |sets| == |refs| + 1 && sets[0] == {}
    && forall t :: 0 <= t < |refs| ==> ServesAt(refs, k, sets, t)
  }

  ghost predicate ServesAt(refs: seq<Page>, k: nat, sets: seq<set<int>>, t: nat)
    requires t < |refs| && t + 1 < |sets|
  {
    Serves(k, sets[t], refs[t], sets[t + 1])
  }

  // Loading a page at slot i when n pages have been loaded so far.
  lemma LoadServes(row: Row, n: nat, i: nat, r: Page)
    requires i < |row| && (n < |row| ==> i == n) && Filled(row, Min(n, |row|)) && r !in row
    ensures Filled(row[i := r], Min(n + 1, |row|)) && r in row[i := r]
    ensures Serves(|row|, Residents(row), r, Residents(row[i := r]))
  {
    LoadedRow(row, Min(n, |row|), i, r);
    FilledSize(row[i := r], Min(n + 1, |row|));
    assert row[i := r][i] == r;
  }

  // Page faults among the first t references.
  ghost function Faults(refs: seq<Page>, sets: seq<set<int>>, t: nat): nat
    requires t <= |refs| && t <= |sets|
  {
    if t == 0 then 0
    else Faults(refs, sets, t - 1) + (if refs[t - 1] in sets[t - 1] then 0 else 1)
  }

  lemma {:induction false} FaultsPrefix(refs: seq<Page>, sets: seq<set<int>>, sets': seq<set<int>>, t: nat)
    requires t <= |refs| && t <= |sets| && t <= |sets'| && sets[..t] == sets'[..t]
    ensures Faults(refs, sets, t) == Faults(refs, sets', t)
  {
    if t > 0 {
      assert sets[..t][t - 1] == sets'[..t][t - 1];
      assert sets[..t - 1] == sets[..t][..t - 1] && sets'[..t - 1] == sets'[..t][..t - 1];
      FaultsPrefix(refs, sets, sets', t - 1);
    }
  }

  // First position at or after t where x is referenced, |refs| if there is none.
  function NextUse(refs: seq<Page>, t: nat, x: int): (u: nat)
    ensures t <= |refs| ==> t <= u <= |refs|
    ensures t <= u < |refs| ==> refs[u] == x
    ensures forall j :: t <= j < u && j < |refs| ==> refs[j] != x
    decreases |refs| - t
  {
    if t >= |refs| then |refs| else if refs[t] == x then t else NextUse(refs, t + 1, x)
  }

  ghost predicate FarthestOf(refs: seq<Page>, t: nat, s: set<int>, v: int) {
    forall x :: x in s ==> NextUse(refs, t, x) <= NextUse(refs, t, v)
  }

  // The replacement OPT aims at: hits change nothing, free frames are used
  // first, and the victim is a page whose next use is farthest away.
  ghost predicate Farthest(refs: seq<Page>, k: nat, t: nat, before: set<int>, after: set<int>)
    requires t < |refs|
  {
    var r := refs[t];
    if r in before then after == before
    else if |before| < k then after == before + {r}
    else
      exists v :: v in before && after == before - {v} + {r} && FarthestOf(refs, t, before, v)
  }

  ghost predicate FarthestSchedule(refs: seq<Page>, k: nat, sets: seq<set<int>>) {
    && |sets| == |refs| + 1 && sets[0] == {}
    && forall t :: 0 <= t < |refs| ==> FarthestAt(refs, k, sets, t)
  }

  ghost predicate FarthestAt(refs: seq<Page>, k: nat, sets: seq<set<int>>, t: nat)
    requires t < |refs| && t + 1 < |sets|
  {
    |sets[t]| <= k && Farthest(refs, k, t, sets[t], sets[t + 1])
  }

  // Farthest-next-use replacement is itself a schedule.
  lemma FarthestServes(refs: seq<Page>, k: nat, t: nat, before: set<int>, after: set<int>)
    requires k >= 1 && t < |refs| && |before| <= k && Farthest(refs, k, t, before, after)
    ensures Serves(k, before, refs[t], after)
  {
  }

  lemma FarthestIsSchedule(refs: seq<Page>, k: nat, sets: seq<set<int>>)
    requires k >= 1 && FarthestSchedule(refs, k, sets)
    ensures Schedule(refs, k, sets)
  {
    forall t | 0 <= t < |refs| ensures ServesAt(refs, k, sets, t) {
      assert FarthestAt(refs, k, sets, t);
      FarthestServes(refs, k, t, sets[t], sets[t + 1]);
    }
  }

  // ---- Optimality -------------------------------------------------------

  // Pages of s other than r that are used again before time u.
  ghost function Soon(refs: seq<Page>, t: nat, s: set<int>, r: int, u: int): set<int> {
    set x | x in s && x != r && NextUse(refs, t, x) < u
  }

  // All pages of s used again before time u.
  ghost function AllSoon(refs: seq<Page>, t: nat, s: set<int>, u: int): set<int> {
    set x | x in s && NextUse(refs, t, x) < u
  }

  // How far b may be ahead of a in useful pages is bounded by how many more
  // faults b has had.
  ghost predicate Ahead(refs: seq<Page>, t: nat, a: set<int>, b: set<int>, lead: int) {
    forall u: int :: |AllSoon(refs, t, b, u)| - |AllSoon(refs, t, a, u)| <= lead
  }

  lemma SoonBefore(refs: seq<Page>, t: nat, s: set<int>, u: int)
    requires t < |refs| && u > t
    ensures |AllSoon(refs, t, s, u)| == |Soon(refs, t, s, refs[t], u)| + (if refs[t] in s then 1 else 0)
  {
    var r := refs[t];
    assert AllSoon(refs, t, s, u) == Soon(refs, t, s, r, u) + (if r in s then {r} else {});
  }

  lemma SoonAfter(refs: seq<Page>, t: nat, s: set<int>, u: int)
    requires t < |refs| && refs[t] in s
    ensures |AllSoon(refs, t + 1, s, u)|
         == |Soon(refs, t, s, refs[t], u)| + (if NextUse(refs, t + 1, refs[t]) < u then 1 else 0)
  {
    var r := refs[t];
    forall x | x != r ensures NextUse(refs, t, x) == NextUse(refs, t + 1, x) { }
    assert AllSoon(refs, t + 1, s, u)
        == Soon(refs, t, s, r, u) + (if NextUse(refs, t + 1, r) < u then {r} else {});
  }

  lemma SubsetSize(a: set<int>, b: set<int>)
    requires a <= b
    ensures |a| <= |b|
  {
    assert b == a + (b - a);
  }

  // What the other schedule can have: no more than before, and room for r.
  lemma OtherSoon(refs: seq<Page>, k: nat, t: nat, b: set<int>, b': set<int>, u: int)
    requires t < |refs| && Serves(k, b, refs[t], b')
    ensures |Soon(refs, t, b', refs[t], u)| <= |Soon(refs, t, b, refs[t], u)|
    ensures |Soon(refs, t, b', refs[t], u)| <= k - 1
  {
    var r := refs[t];
    SubsetSize(Soon(refs, t, b', r, u), Soon(refs, t, b, r, u));
    SubsetSize(Soon(refs, t, b', r, u), b' - {r});
    assert |b' - {r}| == |b'| - 1;
  }

  // The victim is used soon: then so are all the pages kept.
  lemma VictimSoon(refs: seq<Page>, t: nat, a: set<int>, v: int, r: int, u: int)
    requires v in a && r !in a && FarthestOf(refs, t, a, v) && NextUse(refs, t, v) < u
    ensures Soon(refs, t, a - {v} + {r}, r, u) == a - {v}
  {
  }

  // It is not: nothing useful is lost.
  lemma VictimLate(refs: seq<Page>, t: nat, a: set<int>, v: int, r: int, u: int)
    requires NextUse(refs, t, v) >= u
    ensures Soon(refs, t, a - {v} + {r}, r, u) == Soon(refs, t, a, r, u)
  {
  }

  lemma NothingEvicted(refs: seq<Page>, t: nat, a: set<int>, r: int, u: int)
    ensures Soon(refs, t, a + {r}, r, u) == Soon(refs, t, a, r, u)
  {
  }

  // What farthest replacement keeps: everything useful, or else k - 1 useful pages.
  lemma FarthestSoon(refs: seq<Page>, k: nat, t: nat, a: set<int>, a': set<int>, u: int)
    requires t < |refs| && |a| <= k && Farthest(refs, k, t, a, a')
    ensures || |Soon(refs, t, a', refs[t], u)| == |Soon(refs, t, a, refs[t], u)|
            || |Soon(refs, t, a', refs[t], u)| >= k - 1
  {
    var r := refs[t];
    if r !in a && |a| >= k {
      var v :| v in a && a' == a - {v} + {r} && FarthestOf(refs, t, a, v);
      if NextUse(refs, t, v) < u {
        VictimSoon(refs, t, a, v, r, u);
      } else {
        VictimLate(refs, t, a, v, r, u);
      }
    } else {
      NothingEvicted(refs, t, a, r, u);
    }
  }

  lemma NothingSooner(refs: seq<Page>, t: nat, s: set<int>)
    requires t < |refs|
    ensures Soon(refs, t, s, refs[t], t + 1) == {}
  {
  }

  // How a lead changes with the faults of reference r.
  function Lead(lead: int, r: Page, a: set<int>, b: set<int>): int {
    lead + (if r in b then 0 else 1) - (if r in a then 0 else 1)
  }

  lemma LeadStays(refs: seq<Page>, t: nat, a: set<int>, b: set<int>, lead: int)
    requires t < |refs| && |AllSoon(refs, t, b, t + 1)| - |AllSoon(refs, t, a, t + 1)| <= lead
    ensures 0 <= Lead(lead, refs[t], a, b)
  {
    SoonBefore(refs, t, a, t + 1);
    SoonBefore(refs, t, b, t + 1);
    NothingSooner(refs, t, a);
    NothingSooner(refs, t, b);
  }

  lemma AheadAt(refs: seq<Page>, k: nat, t: nat, a: set<int>, a': set<int>, b: set<int>, b': set<int>, lead: int,
      u: int)
    requires t < |refs| && |a| <= k && Farthest(refs, k, t, a, a') && refs[t] in a' && Serves(k, b, refs[t], b')
    requires u > t && |AllSoon(refs, t, b, u)| - |AllSoon(refs, t, a, u)| <= lead && 0 <= Lead(lead, refs[t], a, b)
    ensures |AllSoon(refs, t + 1, b', u)| - |AllSoon(refs, t + 1, a', u)| <= Lead(lead, refs[t], a, b)
  {
    SoonBefore(refs, t, a, u);
    SoonBefore(refs, t, b, u);
    SoonAfter(refs, t, a', u);
    SoonAfter(refs, t, b', u);
    OtherSoon(refs, k, t, b, b', u);
    FarthestSoon(refs, k, t, a, a', u);
  }

  // Each reference keeps the other schedule's advantage covered by its faults.
  lemma AheadStep(refs: seq<Page>, k: nat, t: nat, a: set<int>, a': set<int>, b: set<int>, b': set<int>, lead: int)
    requires t < |refs| && |a| <= k && Farthest(refs, k, t, a, a') && refs[t] in a' && Serves(k, b, refs[t], b')
    requires Ahead(refs, t, a, b, lead)
    ensures Ahead(refs, t + 1, a', b', Lead(lead, refs[t], a, b))
  {
    LeadStays(refs, t, a, b, lead);
    var t' := t + 1;
    forall u: int ensures |AllSoon(refs, t', b', u)| - |AllSoon(refs, t', a', u)| <= Lead(lead, refs[t], a, b) {
      if u > t {
        AheadAt(refs, k, t, a, a', b, b', lead, u);
      } else {
        assert AllSoon(refs, t', b', u) == {};
      }
    }
  }

  lemma {:induction false} LeadCovered(refs: seq<Page>, k: nat, a: seq<set<int>>, b: seq<set<int>>, t: nat)
    requires FarthestSchedule(refs, k, a) && Schedule(refs, k, b) && t <= |refs|
    ensures Ahead(refs, t, a[t], b[t], Faults(refs, b, t) - Faults(refs, a, t))
  {
    if t == 0 {
      forall u: int ensures AllSoon(refs, 0, b[0], u) == {} { }
    } else {
      LeadCovered(refs, k, a, b, t - 1);
      assert FarthestAt(refs, k, a, t - 1) && ServesAt(refs, k, b, t - 1);
      AheadStep(refs, k, t - 1, a[t - 1], a[t], b[t - 1], b[t], Faults(refs, b, t - 1) - Faults(refs, a, t - 1));
    }
  }

  // Farthest-next-use replacement never faults more than any schedule with the
  // same number of frames.
  lemma FarthestIsOptimal(refs: seq<Page>, k: nat, a: seq<set<int>>, b: seq<set<int>>)
    requires FarthestSchedule(refs, k, a) && Schedule(refs, k, b)
    ensures Faults(refs, a, |refs|) <= Faults(refs, b, |refs|)
  {
    LeadCovered(refs, k, a, b, |refs|);
    var none := AllSoon(refs, |refs|, b[|refs|], 0);
    assert none == {};
    assert |none| - |AllSoon(refs, |refs|, a[|refs|], 0)| <= Faults(refs, b, |refs|) - Faults(refs, a, |refs|);
    assert AllSoon(refs, |refs|, a[|refs|], 0) == {};
  }
}
