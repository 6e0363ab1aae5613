# Sequential core of the mymuduo concurrency exercises

The repository is a set of small C++ concurrency exercises. This project models the
sequential state inside them. Each call runs to completion before the next one starts, so
locks are no-ops, atomics are plain integers and threads run one after another. The
components are:

- `DoubleBuffers` (dbd.dfy): the two-slot `DoubleBuffer` of chapter01/src/dbd/main.cc. It
  has two cells and an active index. `Write` stores into the inactive cell and flips the
  index. Versions 1 and 2 return a raw pointer into the cell array (`ReadPointer`).
  Versions 3 and 4 return a copy of a shared handle (`ReadHandle`), modelled as the
  immutable `Foo` it points to. Version 2 adds only a `sleep(1)` to version 1. Version 4
  adds only memory orders to version 3. So one class serves all four.
- `SharedPtrs` (shared_ptr.dfy): the mutex-guarded global pointer of `version1`, and the
  AB-side manager `FooMgr` of `version2` with its function-local static instance. `Foo`
  is an object here because `WriteFoo` increments it in place.
- `Transfers` (transfer.dfy): `unsafe_transfer` and `safe_transfer`, the guarded move
  between two `atomic<int>` balances, and the `safe_transfer_test` scenario.
- `StockFactories` (stock_factory.dfy): `StockFactory::GetStock` and `StockDeleter`.
  Ownership is explicit: each `Stock` counts its strong owners. A `weak_ptr` is a datatype
  that observes a stock. Dropping the last owner runs the deleter.
- `Counters` (counter.dfy): `ThreadSafeCounter` and its 10×100 increment test.
- `Latches` (count_down_latch.dfy): `CountDownLatch`. `CountDown` reports whether it issued
  `NotifyAll`. `Wait` takes, as a parameter, the count it finds after each wake-up,
  because other threads change the count while it sleeps.

The double buffer with a reader registry and a quiescence wait is not modelled. In the
source, `version5::DoubleBuffer` (chapter01/src/dbd/main.cc:248-253) is an empty class, so
no reader registry, reader handle or writer admission lock exists in the code.

Sequential behaviour worth knowing: `GetStock` returns a `weak_ptr`, and the only strong
owner of a new stock is the local `local_ptr`. That owner dies on return, so the caller
always receives an expired handle, and the deleter has already erased the key
(`GetStockSequence`).

## Model

| member | source | states |
|---|---|---|
| DoubleBuffers.Not | chapter01/src/dbd/main.cc:42 | `!index_` is 1 exactly for index 0 and is always 0 or 1 |
| DoubleBuffers.DoubleBuffer.constructor | chapter01/src/dbd/main.cc:127-131 | both cells start as `Foo()` (val 0) and the active index starts at 0 |
| DoubleBuffers.DoubleBuffer.ReadPointer | chapter01/src/dbd/main.cc:39 | versions 1/2 `Read` returns a pointer to the active cell (a slot in range that holds the current value) and changes nothing |
| DoubleBuffers.DoubleBuffer.ReadHandle | chapter01/src/dbd/main.cc:186-189 | versions 3/4 `Read` returns the active cell's handle and changes nothing |
| DoubleBuffers.DoubleBuffer.Write | chapter01/src/dbd/main.cc:41-46 | the index flips to `!index_` and stays 0 or 1; only the formerly inactive cell changes, now holding the new value; the formerly active cell is untouched; a read now yields the new value |
| DoubleBuffers.WriteRoutine | chapter01/src/dbd/main.cc:64-70 | after writing `Foo(1)` then `Foo(2)` the index is back where it started, the active cell holds `Foo(2)` and the other `Foo(1)` |
| DoubleBuffers.WriteRoutineScenario | chapter01/src/dbd/main.cc:215-221 | on a fresh buffer `WriteRoutine` leaves index 0 and a read yields val 2 |
| DoubleBuffers.StalePointerScenario | chapter01/src/dbd/main.cc:84-91 | a pointer read before any write sees `Foo()`, still sees it after one write, and sees `Foo(2)` after the second write overwrites its cell |
| DoubleBuffers.HeldHandleScenario | chapter01/src/dbd/main.cc:136-144 | a handle read before two writes keeps val 0; a read after them yields val 2 |
| SharedPtrs.Foo.constructor | chapter01/src/shared_ptr/main.cc:11-13 | a new `Foo` has val 0 |
| SharedPtrs.WriteFoo | chapter01/src/shared_ptr/main.cc:20-21 | `++ptr->val`: val grows by exactly 1 |
| SharedPtrs.GlobalPublisher.constructor | chapter01/src/shared_ptr/main.cc:30 | the global pointer starts null |
| SharedPtrs.GlobalPublisher.Read | chapter01/src/shared_ptr/main.cc:33-40 | returns a copy of the published pointer and changes nothing |
| SharedPtrs.GlobalPublisher.Write | chapter01/src/shared_ptr/main.cc:42-49 | publishes a newly allocated `Foo` whose val is 1 (created as 0, incremented once) |
| SharedPtrs.PublishScenario | chapter01/src/shared_ptr/main.cc:33-49 | two write/read rounds give two distinct objects, each with val 1; the first reader's object is not disturbed by the second write |
| SharedPtrs.FooMgr.constructor | chapter01/src/shared_ptr/main.cc:82-86 | each side gets its own new `Foo` with val 0, the two sides are distinct objects, and `ver_` starts at 0 |
| SharedPtrs.FooMgr.Read | chapter01/src/shared_ptr/main.cc:65-68 | returns the handle on side `ver_` and changes nothing |
| SharedPtrs.FooMgr.Write | chapter01/src/shared_ptr/main.cc:70-79 | `ver_` becomes `(old ver_ + 1) % 2` and so has flipped; between the increment and the store it held `old ver_ + 1`, which is 2 when it was 1; the new side holds a new `Foo` with val 1; the other side is unchanged |
| SharedPtrs.FooMgrStatic.constructor | chapter01/src/shared_ptr/main.cc:61 | no manager exists before the first `GetInstance` |
| SharedPtrs.FooMgrStatic.GetInstance | chapter01/src/shared_ptr/main.cc:60-63 | the first call constructs a manager in its initial state (two distinct new sides with val 0, `ver_` 0); every later call returns that same manager |
| SharedPtrs.FooMgrScenario | chapter01/src/shared_ptr/main.cc:97-107 | writer and reader get the same manager; after one `Write` the published side is 1, a read yields val 1 and side 0 still holds val 0 |
| Transfers.Account.constructor | chapter01/src/unsafe_transfer/main.cc:48-49 | an account holds the balance it is created with |
| Transfers.UnsafeTransfer | chapter01/src/unsafe_transfer/main.cc:9-18 | succeeds exactly when `money < src` (no sign check on `money`); on success `src` drops and `dst` grows by `money`; on failure nothing changes; the sum of the two balances is preserved in both branches, also when both are the same account |
| Transfers.SafeTransfer | chapter01/src/unsafe_transfer/main.cc:20-30 | the same contract as `unsafe_transfer`, since the lock does not change the effect of one call |
| Transfers.SafeTransferTest | chapter01/src/unsafe_transfer/main.cc:47-60 | from 100/0 two transfers of 60 give true then false, ending at 40/60 |
| Transfers.NegativeAmountScenario | chapter01/src/unsafe_transfer/main.cc:22-26 | a negative amount passes the guard and moves money from `dst` to `src` (0/100 becomes 50/50) |
| Transfers.WholeBalanceScenario | chapter01/src/unsafe_transfer/main.cc:22-29 | a transfer of exactly the balance is refused and both balances are unchanged |
| StockFactories.Stock.constructor | chapter01/src/stock_factory/stock_factory.h:13 | a new stock holds its key and has no owner yet |
| StockFactories.Stock.GetKey | chapter01/src/stock_factory/stock_factory.h:14 | returns the key the stock was built with |
| StockFactories.Lock | chapter01/src/stock_factory/stock_factory.cc:36 | `wptr.lock()` yields null exactly when the pointer has expired; otherwise the observed stock, with one more owner |
| StockFactories.StockFactory.constructor | chapter01/src/stock_factory/stock_factory.h:62 | the map starts empty |
| StockFactories.StockFactory.StockDeleter | chapter01/src/stock_factory/stock_factory.cc:45-53 | for a non-null stock, erases exactly that stock's key and leaves the other keys; for null, changes nothing; the map invariant is restored |
| StockFactories.StockFactory.Release | chapter01/src/stock_factory/stock_factory.cc:39 | dropping a `shared_ptr` made with the factory's deleter removes one owner; when it was the last, the stock's key leaves the map |
| StockFactories.StockFactory.GetStock | chapter01/src/stock_factory/stock_factory.cc:32-43 | the result observes a stock with the requested key; a live entry is returned as is and the map and all owner counts are unchanged; otherwise a new stock is created and recorded, and when `local_ptr` dies on return the deleter erases the key, so the handle is already expired and the map is as before |
| StockFactories.GetStockScenario | chapter01/src/stock_factory/stock_factory.cc:32-43 | two requests for one key create two distinct stocks with that key, both handles are expired and the map ends empty |
| StockFactories.GetStockSequence | chapter01/src/stock_factory/stock_factory.cc:32-43 | for any sequence of keys on a new factory, each handle observes its own new stock with the requested key, each is expired, and the map stays empty |
| Counters.ThreadSafeCounter.constructor | chapter01/src/thread_safe_counter/main.cc:27 | the counter starts at 0 |
| Counters.ThreadSafeCounter.Value | chapter01/src/thread_safe_counter/main.cc:16-19 | returns the count and changes nothing |
| Counters.ThreadSafeCounter.Incr | chapter01/src/thread_safe_counter/main.cc:21-24 | the count grows by exactly 1 and the new count is returned |
| Counters.IncrSequence | chapter01/src/thread_safe_counter/main.cc:21-27 | `n` successive `Incr` results on a new counter are 1, 2, ..., n |
| Counters.TestThreadSafeCounter | chapter01/src/thread_safe_counter/main.cc:31-49 | after 10×100 increments `Value()` is 1000 |
| Latches.CountDownLatch.constructor | chapter02/src/count_down_latch.h:10 | the count is the given value |
| Latches.CountDownLatch.CountDown | chapter02/src/mutex/count_down_latch.cc:13-20 | the count drops by exactly 1 with no lower bound; `NotifyAll` is issued exactly when the count becomes 0 |
| Latches.CountDownLatch.GetCount | chapter02/src/mutex/count_down_latch.cc:22-25 | returns the count and changes nothing |
| Latches.CountDownLatch.Wait | chapter02/src/mutex/count_down_latch.cc:5-11 | given wake-up counts that never rise (only `CountDown` changes the count), it returns exactly when the count is 0, either at entry or at the first wake-up that finds 0; otherwise it is still blocked after every wake-up; from a negative count it never returns |
| Latches.CountDownScenario | chapter02/src/mutex/count_down_latch.cc:16-18 | from count `n`, `calls` count-downs leave `n - calls`; `NotifyAll` fires once when `0 < n <= calls` and never otherwise; `Wait` returns exactly when `calls == n` |

## Left out

- Threads, joins, sleeps and the benchmark timing (`benchmark`, `current_timestamp`, the thread bodies of every `main`): the model covers sequential call histories only.
- `ReadRoutine` of the double buffer: it reads 2^21 times and discards every result, which has no effect on the buffer.
- Memory orders on `index_` (acquire, release, relaxed): a sequential model has no reordering.
- The lock, condition and check wrappers (mutex.h, condition.h, common.h): lock guards are no-ops.
- Console output of `ReadFoo` and `WriteFoo`: only `++ptr->val` is kept. `ReadFoo` dereferences its argument, so `version1::Read` before any `Write` dereferences a null pointer in the source. The model's `GlobalPublisher.Read` just returns the null copy.
- Singleton headers, thread-local storage, thread identity, `make_shared/main.cc`, `base/main.cc` and `stock_factory/main.cc`: these are idioms or test drivers with no state of this core. The last one refers to namespaces that do not exist.
- The commented-out versions 1 and 2 of `StockFactory`: they are dead code.
- StockFactories.StockFactory.StockDeleter: `delete stock` is not modelled, because Dafny has no deallocation. A deleted stock stays as an object with no owners.
- StockFactories.StockFactory.Release: running the deleter happens in the same step as the last owner going away. In the source, another thread's `GetStock` can run between those two steps. It would then record a new stock under the same key, which the deleter's erase-by-key would remove. That interleaving needs concurrency and is not modelled.
- Integer width: balances, the counter and the latch count are C++ `int`. The model uses unbounded integers, so it does not capture 32-bit wrap-around of the atomic balances, or the undefined overflow of `++val_` and `count_--` at the limits.
- Latches.CountDownLatch.Wait: the other threads whose `CountDown` wakes the waiter are not modelled. The model takes the count seen at each wake-up as a parameter, requires those counts never to rise, and reports whether the loop has exited.
