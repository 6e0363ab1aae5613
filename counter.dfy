/** `ThreadSafeCounter` of chapter01/src/thread_safe_counter/main.cc.

    The mutex serialises `Value` and `Incr`; here calls simply run one after
    the other, and the ten test threads run one after another too. */
module Counters {

  /** The test's thread count and the increments each thread performs. */
  const ThreadCount := 10
  const IncrsPerThread := 100

  class ThreadSafeCounter {
    var val: int

    /** The counter starts at 0. */
    constructor ()
      ensures val == 0
    {
      val := 0;
    }

    /** `Value`: the current count; nothing changes. */
    method Value() returns (v: int)
      ensures v == val
    {
      v := val;
    }

    /** `Incr`: `++val_`, returning the new count. */
    method Incr() returns (v: int)
      modifies this
      ensures val == old(val) + 1
      ensures v == val
    {
      val := val + 1;
      v := val;
    }
  }

  /** `n` successive `Incr` calls on a fresh counter return 1, 2, ..., n. */
  method IncrSequence(n: nat) returns (results: seq<int>)
    ensures |results| == n
    ensures forall i :: 0 <= i < n ==> results[i] == i + 1
  {
    var counter := new ThreadSafeCounter();
    results := [];
    while |results| < n
      invariant |results| <= n
      invariant counter.val == |results|
      invariant forall i :: 0 <= i < |results| ==> results[i] == i + 1
    {
      var v := counter.Incr();
      results := results + [v];
    }
  }

  /** `TestThreadSafeCounter`: ten threads of a hundred increments each,
      then `Value()`: 1000. */
  method TestThreadSafeCounter() returns (value: int)
    ensures value == ThreadCount * IncrsPerThread
  {
    var counter := new ThreadSafeCounter();
    for t := 0 to ThreadCount
      invariant counter.val == t * IncrsPerThread
    {
      for i := 0 to IncrsPerThread
        invariant counter.val == t * IncrsPerThread + i
      {
        var _ := counter.Incr();
      }
    }
    value := counter.Value();
  }
}
