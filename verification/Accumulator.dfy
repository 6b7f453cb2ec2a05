/** The integer accumulator under concurrent Aggregate and Delta calls, one atomic instruction at a step. Values
    are 64-bit and wrap around. */
module Accumulator {

  const Modulus: int := 0x1_0000_0000_0000_0000

  /** Signed 64-bit arithmetic: the value in range with the same lowest 64 bits. */
  function Wrap(x: int): int { (x + Modulus / 2) % Modulus - Modulus / 2 }

  /** A result in range is exact; any other one is off by a multiple of 2^64. */
  lemma WrapExact(x: int)
    ensures -0x8000_0000_0000_0000 <= Wrap(x) < 0x8000_0000_0000_0000
    ensures (Wrap(x) - x) % 0x1_0000_0000_0000_0000 == 0
    ensures -0x8000_0000_0000_0000 <= x < 0x8000_0000_0000_0000 ==> Wrap(x) == x
  {
    var q := (x + Modulus / 2) / Modulus;
    assert Wrap(x) - x == -q * Modulus;
  }

  /** Where a Delta call is: what it has loaded so far. */
  datatype Pc = Idle | LoadedCur(cur: int) | LoadedBoth(cur: int, prev: int)

  /** `aggregated` and `returned` sum what Aggregate calls added and Delta calls returned; no transition reads them. */
  datatype State = State(cur: int, prev: int, callers: seq<Pc>, aggregated: int, returned: int)

  datatype Event = Add(v: int) | LoadCur(i: nat) | LoadPrev(i: nat) | CompareAndSwap(i: nat)

  predicate Enabled(st: State, e: Event)
  {
    match e
    case Add(_) => true
    case LoadCur(i) => i < |st.callers| && st.callers[i] == Idle
    case LoadPrev(i) => i < |st.callers| && st.callers[i].LoadedCur?
    case CompareAndSwap(i) => i < |st.callers| && st.callers[i].LoadedBoth?
  }

  /** A failed swap starts the call over. A successful one installs what was loaded, which may be stale. */
  function Apply(st: State, e: Event): State
    requires Enabled(st, e)
  {
    match e
    case Add(v) => st.(cur := Wrap(st.cur + v), aggregated := st.aggregated + v)
    case LoadCur(i) => st.(callers := st.callers[i := LoadedCur(st.cur)])
    case LoadPrev(i) => st.(callers := st.callers[i := LoadedBoth(st.callers[i].cur, st.prev)])
    case CompareAndSwap(i) =>
      var (cur, prev) := (st.callers[i].cur, st.callers[i].prev);
      var out := st.(callers := st.callers[i := Idle]);
      if st.prev == prev then out.(prev := cur, returned := st.returned + Wrap(cur - prev)) else out
  }

  ghost predicate IsRun(states: seq<State>, events: seq<Event>)
  {
    && |states| == |events| + 1
    && states[0].aggregated == 0 && states[0].returned == 0
    && (forall i :: 0 <= i < |states[0].callers| ==> states[0].callers[i] == Idle)
    && forall k {:trigger events[k]} :: 0 <= k < |events| ==>
         Enabled(states[k], events[k]) && states[k + 1] == Apply(states[k], events[k])
  }

  /** What is returned, plus what a Delta would still return, minus what was added. */
  function Balance(st: State): int { st.returned + st.cur - st.prev - st.aggregated }

  predicate Congruent(x: int, y: int) { (x - y) % 0x1_0000_0000_0000_0000 == 0 }

  lemma Chained(x: int, y: int, z: int)
    requires Congruent(x, y) && Congruent(y, z)
    ensures Congruent(x, z)
  {
  }

  lemma StepBalance(st: State, e: Event)
    requires Enabled(st, e)
    ensures Congruent(Balance(Apply(st, e)), Balance(st))
  {
    match e {
      case Add(v) => WrapExact(st.cur + v);
      case CompareAndSwap(i) => WrapExact(st.callers[i].cur - st.callers[i].prev);
      case _ =>
    }
  }

  lemma {:induction false} BalanceKept(states: seq<State>, events: seq<Event>, k: nat)
    requires IsRun(states, events) && k < |states|
    ensures Congruent(Balance(states[k]), Balance(states[0]))
  {
    if k > 0 {
      BalanceKept(states, events, k - 1);
      StepBalance(states[k - 1], events[k - 1]);
      Chained(Balance(states[k]), Balance(states[k - 1]), Balance(states[0]));
    }
  }

  /** The sum of all returned deltas plus current minus previous is, modulo 2^64, the amount ever aggregated plus
      the gap at the start: nothing is counted twice or lost, in any interleaving. */
  lemma NothingLost(states: seq<State>, events: seq<Event>, k: nat)
    requires IsRun(states, events) && k < |states|
    ensures (states[k].returned + states[k].cur - states[k].prev
             - (states[k].aggregated + states[0].cur - states[0].prev)) % 0x1_0000_0000_0000_0000 == 0
  {
    BalanceKept(states, events, k);
  }

  /** So once a Delta has caught up, what was returned is what was aggregated, when both fit an int64. */
  lemma CaughtUp(states: seq<State>, events: seq<Event>, k: nat)
    requires IsRun(states, events) && k < |states| && states[0].cur == states[0].prev
    requires states[k].cur == states[k].prev
    requires -0x8000_0000_0000_0000 <= states[k].returned < 0x8000_0000_0000_0000
    requires -0x8000_0000_0000_0000 <= states[k].aggregated < 0x8000_0000_0000_0000
    ensures states[k].returned == states[k].aggregated
  {
    NothingLost(states, events, k);
  }

  // ---------- one caller at a time ----------

  class IntAccumulator {
    var prevSum: int
    var curSum: int

    constructor ()
      ensures prevSum == 0 && curSum == 0
    {
      prevSum, curSum := 0, 0;
    }

    method Get() returns (v: int)
      ensures v == curSum
    {
      return curSum;
    }

    /** The retry loop, which undisturbed runs once. */
    method Set(v: int)
      modifies this
      ensures curSum == v && prevSum == v
    {
      var done := false;
      while !done
        invariant done ==> curSum == v && prevSum == v
        decreases !done
      {
        var oldCur, oldPrev := curSum, prevSum;
        var swappedCur := curSum == oldCur;
        if swappedCur { curSum := v; }
        var swappedPrev := prevSum == oldPrev;
        if swappedPrev { prevSum := v; }
        done := swappedCur && swappedPrev;
      }
    }

    method Aggregate(v: int)
      modifies this
      ensures curSum == Wrap(old(curSum) + v) && prevSum == old(prevSum)
      ensures -0x8000_0000_0000_0000 <= old(curSum) + v < 0x8000_0000_0000_0000 ==> curSum == old(curSum) + v
    {
      curSum := Wrap(curSum + v);
    }

    /** The change since the last Delta or Set. */
    method Delta() returns (d: int)
      modifies this
      ensures d == Wrap(old(curSum) - old(prevSum)) && prevSum == curSum == old(curSum)
      ensures -0x8000_0000_0000_0000 <= old(curSum) - old(prevSum) < 0x8000_0000_0000_0000 ==>
        d == old(curSum) - old(prevSum)
    {
      var cur := curSum;
      var prev := prevSum;
      prevSum := cur;
      return Wrap(cur - prev);
    }
  }
}
