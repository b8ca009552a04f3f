// The intersection simulator: four threads, one per start point, hand one token
// around; the holder lets its car pass, takes in the next arrivals and picks who
// goes next, the opposite direction first, otherwise a random waiting car.
module Intersection {
  import opened Common

  // Start points are 1 to 4.
  predicate Points(start: seq<int>) {
    forall i :: 0 <= i < |start| ==> 1 <= start[i] <= 4
  }

  function Opposite(k: int): int {
    if k <= 2 then k + 2 else k - 2
  }

  // Start points face each other in two pairs, 1 and 3, 2 and 4.
  lemma OppositePairs(k: int)
    requires 1 <= k <= 4
    ensures 1 <= Opposite(k) <= 4 && Opposite(k) != k && Opposite(Opposite(k)) == k
    ensures {Opposite(1), 1} == {1, 3} && {Opposite(2), 2} == {2, 4}
  {
  }

  // ---- The waiting set ------------------------------------------------------------

  function Without(s: seq<int>, i: nat): seq<int>
    requires i < |s|
  {
    s[..i] + s[i + 1..]
  }

  // removeItem; an absent item costs the last element
  function Removed(s: seq<int>, x: int): seq<int> {
    if x in s then Without(s, IndexOf(s, x)) else if s != [] then s[..|s| - 1] else s
  }

  // getItem: what it returns and what it leaves
  function Picked(s: seq<int>, choice: nat, junk: int): int {
    if s == [] then junk else s[choice % |s|]
  }

  function AfterPick(s: seq<int>, choice: nat): seq<int> {
    if s == [] then [] else Without(s, choice % |s|)
  }

  // struct set with its operations
  class WaitingSet {
    const arr: array<int>
    var howMany: nat

    ghost predicate Valid()
      reads this
    {
      howMany <= arr.Length
    }

    ghost function View(): seq<int>
      requires Valid()
      reads this, arr
    {
      arr[..howMany]
    }

    constructor (capacity: nat)
      ensures Valid() && fresh(arr) && arr.Length == capacity && View() == []
    {
      arr := new int[capacity];
      howMany := 0;
    }

    method Push(x: int)
      requires Valid() && howMany < arr.Length
      modifies this`howMany, arr
      ensures Valid() && View() == old(View()) + [x]
    {
      arr[howMany] := x;
      howMany := howMany + 1;
    }

    // Close the gap at i.
    method DropAt(i: nat)
      requires Valid() && i < howMany
      modifies this`howMany, arr
      ensures Valid() && View() == Without(old(View()), i)
    {
      var j := i;
      while j < howMany - 1
        invariant i <= j <= howMany - 1 && howMany == old(howMany)
        invariant forall l :: 0 <= l < howMany ==> arr[l] == if i <= l < j then old(arr[l + 1]) else old(arr[l])
      {
        arr[j] := arr[j + 1];
        j := j + 1;
      }
      howMany := howMany - 1;
    }

    // getItem; on an empty set the C code returns an uninitialised value, `junk`
    method GetItem(choice: nat, junk: int) returns (item: int)
      requires Valid()
      modifies this`howMany, arr
      ensures Valid() && item == Picked(old(View()), choice, junk) && View() == AfterPick(old(View()), choice)
    {
      if howMany == 0 { return junk; }
      var i := choice % howMany;
      item := arr[i];
      DropAt(i);
    }

    // find
    method Find(x: int) returns (found: bool)
      requires Valid()
      ensures found <==> x in View()
    {
      for i := 0 to howMany
        invariant x !in arr[..i]
      {
        if arr[i] == x { return true; }
      }
      return false;
    }

    // removeItem
    method RemoveItem(x: int)
      requires Valid()
      modifies this`howMany, arr
      ensures Valid() && View() == Removed(old(View()), x)
    {
      var i := 0;
      while i < howMany && arr[i] != x
        invariant i <= howMany && x !in arr[..i]
      {
        i := i + 1;
      }
      if i < howMany {
        assert IndexOf(View(), x) == i;
        DropAt(i);
      } else if howMany > 0 {
        howMany := howMany - 1;
      }
    }
  }

  // ---- The token machine -------------------------------------------------------------

  // passes[k] is Pk; who holds the token (its car is in progress) until stopped.
  datatype State = State(tick: nat, indx: nat, passes: seq<nat>, waiting: seq<int>, who: int, stopped: bool)

  function Total(passes: seq<nat>): nat
    requires |passes| == 5
  {
    passes[1] + passes[2] + passes[3] + passes[4]
  }

  // addSet
  function Arrive(start: seq<int>, s: State): State {
    if s.indx < |start| then s.(waiting := s.waiting + [start[s.indx]], indx := s.indx + 1) else s
  }

  // The holder's car passes: tick++, Pk++.
  function Passed(s: State): State
    requires |s.passes| == 5 && 1 <= s.who <= 4
  {
    s.(tick := s.tick + 1, passes := s.passes[s.who := s.passes[s.who] + 1])
  }

  // ... and the next arrival is taken in.
  function Pass(start: seq<int>, s: State): State
    requires |s.passes| == 5 && 1 <= s.who <= 4
  {
    Arrive(start, Passed(s))
  }

  // getItem and the hand-off or exit that follows it.
  function Choose(start: seq<int>, s: State, choice: nat, junk: int): State
    requires |s.passes| == 5
  {
    var rest := AfterPick(s.waiting, choice);
    if Total(s.passes) == |start| then s.(waiting := rest, stopped := true)
    else s.(waiting := rest, who := Picked(s.waiting, choice, junk))
  }

  // The second half of a turn that finds nobody opposite.
  function Rest(start: seq<int>, s: State, choice: nat, junk: int): State
    requires |s.passes| == 5
  {
    Choose(start, Arrive(start, s.(tick := s.tick + 1)), choice, junk)
  }

  // One round of thread_function1..4 from GO. `choice` is the random number,
  // `junk` what getItem returns from an empty set.
  function Turn(start: seq<int>, s: State, choice: nat, junk: int): State
    requires |s.passes| == 5 && 1 <= s.who <= 4
  {
    var s1 := Pass(start, s);
    var opposite := Opposite(s.who);
    if opposite in s1.waiting then s1.(waiting := Removed(s1.waiting, opposite), who := opposite)
    else Rest(start, s1, choice, junk)
  }

  // How often k occurs in s.
  function Count(s: seq<int>, k: int): nat {
    if s == [] then 0 else Count(s[..|s| - 1], k) + if s[|s| - 1] == k then 1 else 0
  }

  // Per start point: arrived cars have passed, wait, or are in progress; and no
  // more have arrived than the passes so far could take in.
  ghost predicate Inv(start: seq<int>, s: State) {
    && Points(start) && |s.passes| == 5 && 1 <= s.who <= 4 && s.indx <= |start|
    && (forall k :: 1 <= k <= 4 ==>
          Count(start[..s.indx], k) == s.passes[k] + Count(s.waiting, k) +
            (if !s.stopped && s.who == k then 1 else 0))
    && s.indx == Total(s.passes) + |s.waiting| + (if s.stopped then 0 else 1)
    && s.indx <= 2 * Total(s.passes) + 1
    && (s.stopped ==> Total(s.passes) == |start|)
    && Points(s.waiting)
    && Total(s.passes) + 1 <= s.tick <= 2 * Total(s.passes) + 1
    && (s.stopped ==> s.tick >= |start| + 2)
  }

  function Init(start: seq<int>): State
    requires start != []
  {
    State(1, 1, [0, 0, 0, 0, 0], [], start[0], false)
  }

  lemma InitOk(start: seq<int>)
    requires Points(start) && start != []
    ensures Inv(start, Init(start))
  {
    assert start[..1] == [start[0]];
  }

  // ---- What a turn keeps ---------------------------------------------------------------

  // Per start point: arrived cars have passed or wait.
  ghost predicate Accounted(start: seq<int>, indx: nat, passes: seq<nat>, waiting: seq<int>) {
    && |passes| == 5 && indx <= |start|
    && forall k :: 1 <= k <= 4 ==> Count(start[..indx], k) == passes[k] + Count(waiting, k)
  }

  // Inside a turn, once the holder's car has passed: nobody is in progress.
  ghost predicate Between(start: seq<int>, s: State) {
    && Points(start) && 1 <= s.who <= 4 && !s.stopped
    && Accounted(start, s.indx, s.passes, s.waiting)
    && s.indx == Total(s.passes) + |s.waiting|
    && Points(s.waiting)
  }

  lemma {:induction false} CountAppend(a: seq<int>, b: seq<int>, k: int)
    ensures Count(a + b, k) == Count(a, k) + Count(b, k)
  {
    if b != [] {
      assert (a + b)[..|a + b| - 1] == a + b[..|b| - 1];
      CountAppend(a, b[..|b| - 1], k);
    } else {
      assert a + b == a;
    }
  }

  lemma WithoutCount(s: seq<int>, i: nat, k: int)
    requires i < |s|
    ensures Count(s, k) == Count(Without(s, i), k) + (if s[i] == k then 1 else 0)
  {
    assert s == s[..i + 1] + s[i + 1..] && s[..i + 1][..i] == s[..i];
    CountAppend(s[..i + 1], s[i + 1..], k);
    CountAppend(s[..i], s[i + 1..], k);
  }

  lemma ArriveKeeps(start: seq<int>, s: State)
    requires Between(start, s)
    ensures Between(start, Arrive(start, s))
    ensures s.indx < |start| ==> Arrive(start, s).waiting != []
  {
    if s.indx < |start| {
      var x := start[s.indx];
      assert start[..s.indx + 1][..s.indx] == start[..s.indx];
      assert (s.waiting + [x])[..|s.waiting|] == s.waiting;
    }
  }

  lemma PassTotal(passes: seq<nat>, who: int)
    requires |passes| == 5 && 1 <= who <= 4
    ensures Total(passes[who := passes[who] + 1]) == Total(passes) + 1
  {
  }

  // The car that passes moves from "in progress" to "passed".
  lemma PassedCounts(start: seq<int>, s: State)
    requires Inv(start, s) && !s.stopped
    ensures Between(start, Passed(s)) && Total(Passed(s).passes) == Total(s.passes) + 1
  {
    PassTotal(s.passes, s.who);
  }

  lemma PassKeeps(start: seq<int>, s: State)
    requires Inv(start, s) && !s.stopped
    ensures Between(start, Pass(start, s))
    ensures Total(Pass(start, s).passes) == Total(s.passes) + 1
  {
    PassedCounts(start, s);
    ArriveKeeps(start, Passed(s));
  }

  // Handing the token to a waiting car moves it from "waiting" to "in progress".
  lemma HandOver(start: seq<int>, s: State, i: nat)
    requires Between(start, s) && i < |s.waiting|
    requires s.indx <= 2 * Total(s.passes) + 1 && Total(s.passes) + 1 <= s.tick <= 2 * Total(s.passes) + 1
    ensures Inv(start, s.(waiting := Without(s.waiting, i), who := s.waiting[i]))
    ensures Total(s.passes) < |start|
  {
    forall k ensures Count(s.waiting, k) == Count(Without(s.waiting, i), k) + (if s.waiting[i] == k then 1 else 0) {
      WithoutCount(s.waiting, i, k);
    }
  }

  lemma TurnKeepsInv(start: seq<int>, s: State, choice: nat, junk: int)
    requires Inv(start, s) && !s.stopped
    ensures Inv(start, Turn(start, s, choice, junk))
    ensures Total(Turn(start, s, choice, junk).passes) == Total(s.passes) + 1
    ensures Turn(start, s, choice, junk).stopped <==> Total(s.passes) + 1 == |start|
  {
    var s1 := Pass(start, s);
    PassKeeps(start, s);
    var opposite := Opposite(s.who);
    if opposite in s1.waiting {
      HandOver(start, s1, IndexOf(s1.waiting, opposite));
    } else {
      SecondTick(start, s1, choice, junk);
    }
  }

  lemma ChooseKeeps(start: seq<int>, s: State, choice: nat, junk: int)
    requires Between(start, s) && (s.waiting == [] ==> s.indx == |start|)
    requires s.indx <= 2 * Total(s.passes) + 1 && Total(s.passes) + 2 <= s.tick <= 2 * Total(s.passes) + 1
    ensures Inv(start, Choose(start, s, choice, junk))
    ensures Choose(start, s, choice, junk).passes == s.passes
    ensures Choose(start, s, choice, junk).stopped <==> Total(s.passes) == |start|
  {
    if s.waiting != [] {
      HandOver(start, s, choice % |s.waiting|);
    }
  }

  lemma ArriveLater(start: seq<int>, s: State)
    requires Between(start, s)
    ensures var t := Arrive(start, s.(tick := s.tick + 1));
      && Between(start, t) && (t.waiting == [] ==> t.indx == |start|)
      && t.passes == s.passes && t.tick == s.tick + 1 && t.indx <= s.indx + 1
  {
    ArriveKeeps(start, s.(tick := s.tick + 1));
  }

  lemma SecondTick(start: seq<int>, s: State, choice: nat, junk: int)
    requires Between(start, s)
    requires s.indx <= 2 * Total(s.passes) && Total(s.passes) + 1 <= s.tick <= 2 * Total(s.passes)
    ensures Inv(start, Rest(start, s, choice, junk))
    ensures Rest(start, s, choice, junk).passes == s.passes
    ensures Rest(start, s, choice, junk).stopped <==> Total(s.passes) == |start|
  {
    ArriveLater(start, s);
    var t := Arrive(start, s.(tick := s.tick + 1));
    ChooseKeeps(start, t, choice, junk);
    assert Rest(start, s, choice, junk) == Choose(start, t, choice, junk);
  }

  // getItem's uninitialised result is never used.
  lemma JunkUnused(start: seq<int>, s: State, choice: nat, junk: int, other: int)
    requires Inv(start, s) && !s.stopped
    ensures Turn(start, s, choice, junk) == Turn(start, s, choice, other)
  {
    PassKeeps(start, s);
    var t := Pass(start, s).(tick := Pass(start, s).tick + 1);
    ArriveKeeps(start, t);
  }

  // The waiting set's fill at each of its three observable points of a turn.
  lemma WaitingBound(start: seq<int>, s: State)
    requires Inv(start, s)
    ensures |s.waiting| <= (|start| + 1) / 2
    ensures !s.stopped ==> |Pass(start, s).waiting| <= (|start| + 1) / 2
    ensures !s.stopped ==> |Arrive(start, Pass(start, s)).waiting| <= (|start| + 1) / 2
  {
    if !s.stopped {
      PassKeeps(start, s);
      ArriveKeeps(start, Pass(start, s));
    }
  }

  // The car opposite goes next whenever it waits, after one tick; otherwise, after
  // two, a waiting car of the random choice, unless all have passed.
  lemma TokenIsHandedOver(start: seq<int>, s: State, choice: nat, junk: int)
    requires Inv(start, s) && !s.stopped
    ensures var s1, t := Pass(start, s), Turn(start, s, choice, junk);
      && (Opposite(s.who) in s1.waiting ==> t.who == Opposite(s.who) && !t.stopped && t.tick == s.tick + 1)
      && (Opposite(s.who) !in s1.waiting ==> t.tick == s.tick + 2)
      && (Opposite(s.who) !in s1.waiting && !t.stopped ==>
            var w := Arrive(start, s1).waiting; w != [] && t.who == w[choice % |w|])
  {
    PassKeeps(start, s);
    ArriveLater(start, Pass(start, s));
  }

  // The holder's car passes, and no other.
  lemma HolderPasses(start: seq<int>, s: State, choice: nat, junk: int, k: int)
    requires Inv(start, s) && !s.stopped && 1 <= k <= 4
    ensures |Turn(start, s, choice, junk).passes| == 5
    ensures Turn(start, s, choice, junk).passes[k] == s.passes[k] + (if k == s.who then 1 else 0)
  {
    TurnPasses(start, s, choice, junk);
  }

  lemma TurnPasses(start: seq<int>, s: State, choice: nat, junk: int)
    requires |s.passes| == 5 && 1 <= s.who <= 4
    ensures Turn(start, s, choice, junk).passes == s.passes[s.who := s.passes[s.who] + 1]
  {
  }

  // ---- Whole runs ---------------------------------------------------------------------

  // One random number and one uninitialised value per turn.
  type Picks = seq<(nat, int)>

  ghost function Run(start: seq<int>, s: State, picks: Picks): (r: State)
    requires Inv(start, s)
    ensures Inv(start, r)
    decreases |picks|
  {
    if s.stopped || picks == [] then s
    else
      TurnKeepsInv(start, s, picks[0].0, picks[0].1);
      Run(start, Turn(start, s, picks[0].0, picks[0].1), picks[1..])
  }

  lemma {:induction false} RunTotal(start: seq<int>, s: State, picks: Picks)
    requires Inv(start, s) && (!s.stopped ==> Total(s.passes) < |start|)
    ensures var r := Run(start, s, picks);
            && (r.stopped <==> Total(s.passes) + |picks| >= |start|)
            && Total(r.passes) == if r.stopped then |start| else Total(s.passes) + |picks|
    decreases |picks|
  {
    if !s.stopped && picks != [] {
      TurnKeepsInv(start, s, picks[0].0, picks[0].1);
      RunTotal(start, Turn(start, s, picks[0].0, picks[0].1), picks[1..]);
    }
  }

  // Whatever the random choices, the machine stops after exactly one turn per
  // car, every car has passed from its start point, and the clock is bounded.
  lemma RunsToCompletion(start: seq<int>, picks: Picks)
    requires Points(start) && start != []
    ensures Inv(start, Init(start))
    ensures var r := Run(start, Init(start), picks);
            && (r.stopped <==> |picks| >= |start|)
            && |r.waiting| <= (|start| + 1) / 2
            && (r.stopped ==>
                  && r.waiting == []
                  && (forall k :: 1 <= k <= 4 ==> r.passes[k] == Count(start, k))
                  && |start| + 2 <= r.tick <= 2 * |start| + 1)
  {
    InitOk(start);
    var r := Run(start, Init(start), picks);
    RunTotal(start, Init(start), picks);
    WaitingBound(start, r);
    if r.stopped {
      assert start[..r.indx] == start;
    }
  }

  // In every state reached: arrived = passed + waiting + the one in progress.
  lemma CarsConserved(start: seq<int>, picks: Picks, k: int)
    requires Points(start) && start != [] && 1 <= k <= 4
    ensures Inv(start, Init(start))
    ensures var r := Run(start, Init(start), picks);
            && r.indx <= |start|
            && Count(start[..r.indx], k) == r.passes[k] + Count(r.waiting, k) +
                 (if !r.stopped && r.who == k then 1 else 0)
  {
    InitOk(start);
  }

  // ---- The threads' shared variables ----------------------------------------------------

  class Crossing {
    const start: seq<int>
    const cars: WaitingSet
    var tick: nat
    var indx: nat
    var passes: seq<nat>
    var who: int
    var stopped: bool

    ghost predicate Valid()
      reads this, cars
    {
      cars.Valid()
    }

    ghost function Abs(): State
      requires Valid()
      reads this, cars, cars.arr
    {
      State(tick, indx, passes, cars.View(), who, stopped)
    }

    constructor (start: seq<int>, capacity: nat)
      requires start != []
      ensures Valid() && fresh(cars) && fresh(cars.arr) && cars.arr.Length == capacity
      ensures this.start == start && Abs() == Init(start)
    {
      this.start := start;
      cars := new WaitingSet(capacity);
      tick, indx, passes, who, stopped := 1, 1, [0, 0, 0, 0, 0], start[0], false;
    }

    // addSet
    method AddSet()
      requires Valid()
      requires |Arrive(start, Abs()).waiting| <= cars.arr.Length
      modifies this`indx, cars`howMany, cars.arr
      ensures Valid() && Abs() == Arrive(start, old(Abs()))
    {
      if indx < |start| {
        cars.Push(start[indx]);
        indx := indx + 1;
      }
    }

    // tick++; Pk++; addSet
    method PassCar()
      requires Valid() && |passes| == 5 && 1 <= who <= 4
      requires |Pass(start, Abs()).waiting| <= cars.arr.Length
      modifies this, cars`howMany, cars.arr
      ensures Valid() && Abs() == Pass(start, old(Abs()))
    {
      tick := tick + 1;
      passes := passes[who := passes[who] + 1];
      AddSet();
    }

    method ChooseNext(choice: nat, junk: int)
      requires Valid() && |passes| == 5
      modifies this`who, this`stopped, cars`howMany, cars.arr
      ensures Valid() && Abs() == Choose(start, old(Abs()), choice, junk)
    {
      var item := cars.GetItem(choice, junk);
      if passes[1] + passes[2] + passes[3] + passes[4] == |start| {
        stopped := true;
      } else {
        who := item;
      }
    }

    // The branch without an opposite car: wait a tick, then pick or stop.
    method PickNext(choice: nat, junk: int)
      requires Valid() && |passes| == 5
      requires |Arrive(start, Abs()).waiting| <= cars.arr.Length
      modifies this, cars`howMany, cars.arr
      ensures Valid() && Abs() == Rest(start, old(Abs()), choice, junk)
    {
      tick := tick + 1;
      AddSet();
      ChooseNext(choice, junk);
    }

    // One round of a thread, from GO to its hand-off or exit.
    method Round(choice: nat, junk: int)
      requires Valid() && Inv(start, Abs()) && !stopped
      requires (|start| + 1) / 2 <= cars.arr.Length
      modifies this, cars`howMany, cars.arr
      ensures Valid() && Abs() == Turn(start, old(Abs()), choice, junk)
    {
      WaitingBound(start, Abs());
      PassCar();
      var opposite := Opposite(who);
      var found := cars.Find(opposite);
      if found {
        cars.RemoveItem(opposite);
        who := opposite;
      } else {
        PickNext(choice, junk);
      }
    }
  }

  // The whole program with the 15-slot array, for at most 30 cars: no store leaves
  // the array, and it ends with the exact pass counts.
  method Simulate(start: seq<int>, picks: Picks) returns (passes: seq<nat>, tick: nat)
    requires Points(start) && 1 <= |start| <= 30 && |start| <= |picks|
    ensures |passes| == 5 && forall k :: 1 <= k <= 4 ==> passes[k] == Count(start, k)
    ensures |start| + 2 <= tick <= 2 * |start| + 1
  {
    var c := new Crossing(start, 15);
    InitOk(start);
    var i := 0;
    while !c.stopped
      invariant c.Valid() && c.cars.arr.Length == 15 && c.start == start && fresh(c) && fresh(c.cars)
        && fresh(c.cars.arr)
      invariant i <= |start| && Inv(start, c.Abs())
      invariant Total(c.passes) == i && (!c.stopped ==> i < |start|)
      decreases |start| - i, if c.stopped then 0 else 1
    {
      TurnKeepsInv(start, c.Abs(), picks[i].0, picks[i].1);
      c.Round(picks[i].0, picks[i].1);
      i := i + 1;
    }
    assert start[..c.indx] == start;
    return c.passes, c.tick;
  }
}
