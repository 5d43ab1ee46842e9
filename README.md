# AbstractPromise completion cell, modelled in Dafny

This project models the completion primitive of the `io.el` event-loop
library: `AbstractPromise`, a one-shot cell that holds either a success value
(`result`) or a failure cause (`cause`), keeps an ordered list of completion
listeners, and dispatches those listeners on the promise's owning event loop.
The model is sequential: the field-updater compare-and-set and the
`synchronized` blocks become atomic steps. Java `null` is `None`.

- `completion.dfy`, module `Completion`: the two slots as a value (`Slots`),
  `isSuccess` / `isDone` / `isCancelled`, the transitions `setSuccess`,
  `setFailure` and `cancel`, runs of such calls, and the value/exception
  choice made by `get()` and `get(timeout, unit)`.
- `dispatch.dfy`, module `Dispatch`: the order in which a snapshot-and-swap
  dispatch invokes listeners. `Order(queued, late)` is that order when
  `queued` is in the list at the start and `late[i]` is the batch that other
  threads register during round `i`.
- `promise.dfy`, module `Promises`: class `Promise` with the fields `result`,
  `cause` and `listeners`. Two ghost fields log the listener invocations
  (`fired`) and every registration (`registered`). The class invariant
  `registered == fired + listeners` says that every registration has been
  invoked exactly once, in registration order, or is still queued (for
  listeners that throw no `Error` and register nothing; see Left out).
  Listeners registered while a dispatch runs are the input `late`.
  `inEventLoop()` depends on the calling thread, so it is passed to each call
  as `onLoop`.
- `await.dfy`, module `Await`: the decisions of `await()` and
  `await(timeout, unit)`, which are to return, to throw `InterruptedException`,
  or to call `Object.wait` with some bound. It holds the as-written and the
  corrected forms of the timed wait (see Findings).

In two places the code does less than its interface suggests; the model follows the code:

- When `notifyListeners` runs off the owning loop it just returns. It does not
  queue a task on the loop. So a `setSuccess`/`setFailure` from another
  thread leaves every listener registered so far queued. They fire only when
  someone later calls `addListener` on the loop.
- `setSuccess(null)` and `setFailure(null)` are accepted: the compare-and-set
  from null to null succeeds. The promise stays pending and can still be
  completed later. On the owning loop such a call still drains the queued
  listeners, even though the promise is not done.

## Model

| member | source | states |
|---|---|---|
| `Completion.IsSuccess` | core/src/main/java/io/el/concurrent/AbstractPromise.java:34-37 | `isSuccess` holds exactly when a result is present, and a successful promise is done. |
| `Completion.IsDone` | core/src/main/java/io/el/concurrent/AbstractPromise.java:168-171 | `isDone` holds exactly when a result or a cause is present: a promise is pending exactly when both slots are null, as when it was created. |
| `Completion.IsCancelled` | core/src/main/java/io/el/concurrent/AbstractPromise.java:163-166 | `isCancelled` is false for every promise. |
| `Completion.Cancel` | core/src/main/java/io/el/concurrent/AbstractPromise.java:158-161 | `cancel` throws UnsupportedOperation whatever its argument. |
| `Completion.SetSuccess` | core/src/main/java/io/el/concurrent/AbstractPromise.java:135-144 | Throws IllegalState exactly when the promise is already done. Otherwise `result` becomes `v` and `cause` stays absent, and the promise is done and successful exactly when `v` is non-null. |
| `Completion.SetFailure` | core/src/main/java/io/el/concurrent/AbstractPromise.java:147-156 | Throws IllegalState exactly when the promise is already done. Otherwise `cause` becomes `c` and `result` is untouched (absent), so `isSuccess` is false. The promise is done exactly when `c` is non-null. |
| `Completion.DoneIsFinal` | core/src/main/java/io/el/concurrent/AbstractPromise.java:134-171 | On a done promise, every later `setSuccess`/`setFailure`/`cancel` throws, and no sequence of calls changes `result`, `cause` or `isSuccess`. |
| `Completion.AtMostOneCompletion` | core/src/main/java/io/el/concurrent/AbstractPromise.java:134-156 | At most one call in any sequence completes the promise. The promise ends done exactly when it started done or one call completed it. |
| `Completion.ExclusiveKept` | core/src/main/java/io/el/concurrent/AbstractPromise.java:134-156 | No sequence of calls leaves both `result` and `cause` present. |
| `Completion.CancelIsUnsupported` | core/src/main/java/io/el/concurrent/AbstractPromise.java:158-166 | `cancel` always throws UnsupportedOperation and leaves the slots unchanged, and `isCancelled` is false. |
| `Completion.FirstWriterWins` | core/src/main/java/io/el/concurrent/AbstractPromise.java:135-144 | `setSuccess(a)` then `setSuccess(b)` on a new promise: the first call succeeds, the second throws IllegalState, and the value stays `a`. |
| `Completion.Get` | core/src/main/java/io/el/concurrent/AbstractPromise.java:175-184 | A promise done at the call is reported at once through `Report`. On a pending promise, an interrupted caller gets Interrupted. Otherwise `get` reports the first wake-up that finds the promise done. It keeps waiting while no such wake-up comes, and it never times out. |
| `Completion.TimedGet` | core/src/main/java/io/el/concurrent/AbstractPromise.java:188-200 | As written: a promise done at the call is reported at once, and on a pending promise an interrupted caller gets Interrupted. Otherwise `get` waits, and never returns exactly when `await(timeout)` never returns. When `await` does return, a done cell is reported through `Report` and a pending one gives TimeoutException. |
| `Completion.CorrectedTimedGet` | core/src/main/java/io/el/concurrent/AbstractPromise.java:188-200 | Corrected: the same decisions over the corrected `await(timeout)`. A zero timeout on a pending, uninterrupted promise times out at once. Otherwise the cell at the deadline is reported, or TimeoutException is thrown if it is still pending. It never keeps waiting. |
| `Completion.ZeroTimeoutGet` | core/src/main/java/io/el/concurrent/AbstractPromise.java:188-192 | `get(0)` on a pending promise, as written: the first wait is `wait(0)`. It returns a value completed later, and never returns when no completion comes. Corrected, it throws TimeoutException at once. |
| `Completion.Report` | core/src/main/java/io/el/concurrent/AbstractPromise.java:177-183 | After the wait, `get` returns `result` exactly when no cause is present. A cancellation cause is rethrown as it is, and any other cause is wrapped in ExecutionException. |
| `Completion.GetAfterCompletion` | core/src/main/java/io/el/concurrent/AbstractPromise.java:135-184 | Round trip: `get` after `setSuccess(v)` returns `v`. After `setFailure(c)`, `get` rethrows `c` if it is a cancellation, and otherwise throws ExecutionException carrying `c`. |
| `Dispatch.Order` | core/src/main/java/io/el/concurrent/AbstractPromise.java:58-85 | A dispatch that finds the list empty invokes nothing. Otherwise the invocation sequence is at least as long as the queue; its exact contents and order are given by `Dispatch.OrderIsRegistrationOrder`. |
| `Dispatch.Busy` | core/src/main/java/io/el/concurrent/AbstractPromise.java:78-84 | The dispatch runs one more round for each leading round during which a listener arrived. It stops after the first round in which none did. |
| `Dispatch.OrderIsRegistrationOrder` | core/src/main/java/io/el/concurrent/AbstractPromise.java:58-85 | A dispatch invokes the listeners queued at its start, then those registered during each busy round, each exactly once and in registration order, and no others. |
| `Dispatch.OrderWithoutArrivals` | core/src/main/java/io/el/concurrent/AbstractPromise.java:58-85 | When nothing arrives during the dispatch, exactly the queued listeners are invoked, in order. |
| `Promises.Promise.constructor` | core/src/main/java/io/el/concurrent/AbstractPromise.java:25-32 | A new promise is pending and has no listeners, no invocations and no registrations. |
| `Promises.Promise.IsSuccess` | core/src/main/java/io/el/concurrent/AbstractPromise.java:34-37 | True exactly when the `result` field is non-null. |
| `Promises.Promise.IsDone` | core/src/main/java/io/el/concurrent/AbstractPromise.java:168-171 | True exactly when the `result` or the `cause` field is non-null. |
| `Promises.Promise.IsCancelled` | core/src/main/java/io/el/concurrent/AbstractPromise.java:163-166 | Always false. |
| `Promises.Promise.AddListener` | core/src/main/java/io/el/concurrent/AbstractPromise.java:40-50 | Appends the listener after the earlier ones and never changes `result` or `cause`. On a done promise, on the owning loop, the whole queue is then dispatched in order and left empty. In every other case nothing fires. |
| `Promises.Promise.NotifyListeners` | core/src/main/java/io/el/concurrent/AbstractPromise.java:53-86 | Off the owning loop this changes nothing. On the loop, every queued listener and every listener registered during a busy round is invoked exactly once, in registration order (`Dispatch.Order`). The queue ends empty and every registration has fired. The invariant `registered == fired + listeners` is kept. |
| `Promises.Promise.InvokeAll` | core/src/main/java/io/el/concurrent/AbstractPromise.java:68-74 | Every listener of the snapshot is invoked once, in order, and an `Exception` thrown by a listener is caught and does not stop the rest. Nothing but the invocation log changes. |
| `Promises.Promise.SetSuccess` | core/src/main/java/io/el/concurrent/AbstractPromise.java:135-144 | Matches `Completion.SetSuccess`. On a throw, the slots and the listener list are unchanged. Otherwise it tries a dispatch: the queue is drained in order on the owning loop, and nothing happens off it. |
| `Promises.Promise.SetFailure` | core/src/main/java/io/el/concurrent/AbstractPromise.java:147-156 | Matches `Completion.SetFailure`. On a throw, the slots and the listener list are unchanged. Otherwise it tries a dispatch: the queue is drained in order on the owning loop, and nothing happens off it. |
| `Promises.Promise.Cancel` | core/src/main/java/io/el/concurrent/AbstractPromise.java:158-166 | Always throws UnsupportedOperation, and the promise is never cancelled. |
| `Await.Untimed` | core/src/main/java/io/el/concurrent/AbstractPromise.java:117-132 | `await()` returns at once exactly when the promise is done. It throws exactly when the promise is pending and the caller was interrupted. Otherwise it waits with no time bound. |
| `Await.WaitFor` | core/src/main/java/io/el/concurrent/AbstractPromise.java:108 | As written: the bound passed to `wait` is the time left truncated to whole milliseconds. The wait has no bound exactly when under one millisecond is left. |
| `Await.Enter` | core/src/main/java/io/el/concurrent/AbstractPromise.java:88-108 | As written: `await(timeout)` returns at once exactly when the promise is done, and throws exactly when it is pending and the caller was interrupted. Otherwise it waits, and that wait has no bound exactly when the timeout is under one millisecond. |
| `Await.Resume` | core/src/main/java/io/el/concurrent/AbstractPromise.java:103-114 | As written: after a wake-up, the wait loop returns exactly when the deadline has passed or the promise is done. Otherwise the next wait has no bound exactly when under one millisecond is left. |
| `Await.SubMillisecondWaitIsUnbounded` | core/src/main/java/io/el/concurrent/AbstractPromise.java:108 | Counterexample: `await(0)`, and any timed wait on a pending promise with under 1 ms left, calls `wait(0)` and so waits until notified. |
| `Await.CorrectedWaitFor` | core/src/main/java/io/el/concurrent/AbstractPromise.java:108 | Corrected: the wait is always bounded, and it ends less than a millisecond after the time left runs out. |
| `Await.CorrectedEnter` | core/src/main/java/io/el/concurrent/AbstractPromise.java:88-108 | Corrected entry: a zero timeout on an uninterrupted pending promise returns at once. Every wait is bounded by the timeout, rounded up to whole milliseconds. |
| `Await.CorrectedResume` | core/src/main/java/io/el/concurrent/AbstractPromise.java:103-114 | Corrected resumption: the loop returns exactly when the deadline has passed or the promise is done, and every further wait is bounded by the time left. |

## Left out

- Blocking, `wait`/`notifyAll`, `System.nanoTime`, `Thread.interrupted` and interrupts delivered during a wait: the clock and the threads are parameters (`interrupted`, the time left, and the slots seen when a wait ends).
- `Completion.TimedGet`: whether and when the as-written wait loop returns, and the cell it then sees, is the parameter `woke`. The model does not derive from `Await.Enter` and `Await.Resume` which timeouts can leave it waiting for ever. It does not check that `woke` is reachable from `atCall` either.
- `Completion.CorrectedTimedGet`: the cell at the deadline is the parameter `atDeadline`, which is not checked to be reachable from `atCall`.
- `Completion.Get`: the wake-ups of `await()` are reduced to the first one that finds the promise done (`woke`). A call that never returns is represented by the outcome `Waiting`.
- `Promises.Promise.NotifyListeners`: a listener invocation is logged by the listener's identity only. What a listener body does is unseen code and is not modelled. The log is kept the same whether or not a listener throws an `Exception`, because such an exception is only logged.
- `Promises.Promise.NotifyListeners`: an `addListener` made from inside a listener on the loop of a done promise is not modelled. It starts a nested dispatch that invokes the new listener at once, ahead of the rest of the current snapshot. With the snapshot `[a, b]` and `a` adding `x`, the order is `a, x, b`, although `b` was registered before `x`. So the registration order stated by `Promises.Promise.NotifyListeners` and `Dispatch.OrderIsRegistrationOrder` holds only for listeners registered by other threads (the input `late`).
- `Promises.Promise.InvokeAll`: only an `Exception` thrown by a listener is caught (`AbstractPromise.java` line 71). A listener that throws an `Error` ends the dispatch, and the `Error` propagates out of `notifyListeners` and out of the `addListener`, `setSuccess` or `setFailure` that called it, after the result is already published. The rest of the snapshot has already been taken out of the list (lines 64-65), so it is never invoked, and the exactly-once promise does not hold for it. The model has no `Error` outcome and always invokes the whole snapshot.
- Logging through log4j: a side effect only.
- `checkNotNull(listener)` and `checkPositiveOrZero(timeout)` come from `ObjectUtil`, which is not part of this model. Listeners are never null here, and the timeout check is the `requires timeoutNanos >= 0`.
- `TimeUnit` conversion: timeouts are given in nanoseconds.
- Races between threads: the compare-and-set and the monitor are atomic steps. Listeners registered during a dispatch are the input `late`. In a dispatch started by `addListener`, another thread can add to the list between rounds. `setSuccess` and `setFailure` are `synchronized` and hold the monitor through their dispatch, so there another thread's `addListener` blocks and cannot add to `late`. The contracts of `Promises.Promise.SetSuccess` and `Promises.Promise.SetFailure` hold for every `late`, including the empty one.
- The `eventLoop()` accessor: it only returns the owner, which the model reduces to `onLoop`.
- `DefaultEventLoopGroup`: it delegates to a chooser and to child loops that are not part of this model.
- `SingleThreadEventLoop` and its test: not part of this model.

## Findings

| source | as written | input that shows it | evidently intended | confidence | as-written member | corrected member |
|---|---|---|---|---|---|---|
| core/src/main/java/io/el/concurrent/AbstractPromise.java:108 | `wait(timeLeft / 1000000)` truncates to whole milliseconds, and `Object.wait(0)` waits until notified with no time bound | `await(0, unit)` or `get(0, unit)` on a promise that is never completed waits forever instead of returning or throwing TimeoutException. The same happens whenever the loop resumes with between 1 ns and 999 999 ns left. | a timed await returns once its deadline has passed | not executed; high for a zero timeout (documented behaviour of `Object.wait(0)`) | `Await.SubMillisecondWaitIsUnbounded` | `Await.CorrectedEnter` |
