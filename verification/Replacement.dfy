// The program as a whole: main runs the four policies on one reference string.
module Replacement {
  import opened Paging
  import Opt
  import Clock
  import Lru
  import LruAnomalies

  // OPT reports the least number of page faults of any schedule: never more than
  // FIFO or Second-Chance, nor than LRU as long as LRU loads every page it
  // counts.
  method Simulate(refs: seq<Page>, k: nat) returns (opt: nat, fifo: nat, lru: nat, scr: nat)
    requires k >= 1
    ensures opt <= fifo && opt <= scr
    ensures (forall t :: 0 <= t < |refs| ==> Lru.Loads(refs, k, t)) ==> opt <= lru
    ensures fifo == Clock.FifoRun(refs, k, |refs|).faults && scr == Clock.RingRun(refs, k, |refs|).faults
    ensures lru == Lru.Run(refs, k, |refs|).number
    ensures forall b :: Schedule(refs, k, b) ==> opt <= Faults(refs, b, |refs|)
    ensures exists b :: Schedule(refs, k, b) && opt == Faults(refs, b, |refs|)
  {
    var rows, marks;
    rows, marks, opt := Opt.Opt(refs, k);
    FarthestIsSchedule(refs, k, SetsOf(rows));
    rows, marks, fifo := Clock.RunFifo(refs, k);
    Clock.FifoSchedule(refs, k, rows);
    rows, marks, lru := Lru.RunLru(refs, k);
    Lru.LruScheduleIff(refs, k, rows);
    rows, marks, scr := Clock.RunSecondChance(refs, k);
    Clock.SecondChanceSchedule(refs, k, rows);
  }

  // The program itself shows OPT beaten by LRU.
  method BeatsOpt() returns (opt: nat, lru: nat)
    ensures lru == 5 && opt >= 6
  {
    var fifo, scr;
    opt, fifo, lru, scr := Simulate(LruAnomalies.FOOLING, 3);
    ghost var b :|
      && Schedule(LruAnomalies.FOOLING, 3, b)
      && opt == Faults(LruAnomalies.FOOLING, b, |LruAnomalies.FOOLING|);
    LruAnomalies.LruCanBeatOpt(b);
  }
}
