/** `CountDownLatch` of chapter02/src/mutex/count_down_latch.cc and
    chapter02/src/count_down_latch.h.

    The mutex is a no-op.  `NotifyAll` on the condition variable becomes an
    out-parameter of `CountDown` saying whether it was issued.  What the
    threads that `Wait` sleeps on do meanwhile cannot be seen from here, so
    `Wait` takes, as a parameter, the count it finds after each wake-up. */
module Latches {

  class CountDownLatch {
    var count: int

    /** `explicit CountDownLatch(int count)`: any integer, unchecked. */
    constructor (count: int)
      ensures this.count == count
    {
      this.count := count;
    }

    /** `CountDown`: `count_--` with no lower bound, so the count can go
        below zero; `NotifyAll` is issued exactly when the decrement makes it
        zero. */
    method CountDown() returns (notified: bool)
      modifies this
      ensures count == old(count) - 1
      ensures notified <==> old(count) == 1
    {
      count := count - 1;
      notified := count == 0;
    }

    /** `GetCount`: the count; nothing changes. */
    method GetCount() returns (c: int)
      ensures c == count
    {
      c := count;
    }

    /** `Wait`: `while (count_ != 0) cond_.Wait();`.  `wakeups[i]` is the
        count found after the `i`-th `cond_.Wait()` returns.  `returned` is
        true exactly when the loop has exited, which it does only once the
        count is 0; when the wake-ups run out first the call is still blocked.
        `waits` is how many times it slept.  Only `CountDown` changes the
        count, so each wake-up finds a count no larger than the one before;
        from a negative count the loop therefore never exits. */
    method Wait(wakeups: seq<int>) returns (returned: bool, waits: nat)
      requires forall i :: 0 <= i < |wakeups| ==> wakeups[i] <= (if i == 0 then count else wakeups[i - 1])
      modifies this
      ensures old(count) < 0 ==> !returned
      ensures returned <==> count == 0
      ensures returned <==> old(count) == 0 || 0 in wakeups
      ensures waits <= |wakeups|
      ensures count == if waits == 0 then old(count) else wakeups[waits - 1]
      ensures forall i :: 0 <= i < waits - 1 ==> wakeups[i] != 0
      ensures !returned ==> waits == |wakeups|
    {
      waits := 0;
      while count != 0 && waits < |wakeups|
        invariant waits <= |wakeups|
        invariant count == if waits == 0 then old(count) else wakeups[waits - 1]
        invariant forall i :: 0 <= i < waits - 1 ==> wakeups[i] != 0
        invariant waits > 0 ==> old(count) != 0
        invariant old(count) < 0 ==> count < 0
        decreases |wakeups| - waits
      {
        count := wakeups[waits];
        waits := waits + 1;
      }
      returned := count == 0;
      if !returned {
        assert forall i :: 0 <= i < |wakeups| ==> wakeups[i] != 0;
      } else if waits > 0 {
        assert wakeups[waits - 1] in wakeups;
      }
    }
  }

  /** A latch built with `n` followed by `calls` calls of `CountDown`, then a
      `Wait` with no wake-ups: the count ends at `n - calls`; `NotifyAll` was
      issued once if the count passed through zero (0 < n <= calls) and never
      otherwise; `Wait` returns immediately exactly when `calls == n`, and
      with a count below zero it does not return. */
  method CountDownScenario(n: int, calls: nat) returns (notifications: nat, finalCount: int, waitReturned: bool)
    ensures finalCount == n - calls
    ensures notifications == if 0 < n <= calls then 1 else 0
    ensures waitReturned <==> calls == n
  {
    var latch := new CountDownLatch(n);
    notifications := 0;
    for k := 0 to calls
      invariant latch.count == n - k
      invariant notifications == if 0 < n <= k then 1 else 0
    {
      var notified := latch.CountDown();
      if notified {
        notifications := notifications + 1;
      }
    }
    finalCount := latch.GetCount();
    var waits;
    waitReturned, waits := latch.Wait([]);
  }
}
