/** The completion cell of a promise: the `result` and `cause` slots, the
    one-shot transitions on them, the status predicates and the choice `get`
    makes once the caller's wait is over. Java's `null` is `None`. */
module Completion {
  import Await

  datatype Option<T> = None | Some(value: T)

  /** A failure cause. The promise only ever asks whether a cause is a
      `CancellationException`; `id` keeps distinct causes distinct. */
  datatype Throwable = CancellationException(id: nat) | OtherThrowable(id: nat)

  /** The exceptions the completion operations throw themselves. */
  datatype Exception = IllegalState | UnsupportedOperation

  /** The two volatile slots of a promise. */
  datatype Slots<V> = Slots(result: Option<V>, cause: Option<Throwable>)

  /** A freshly constructed promise: both slots null. */
  function Fresh<V>(): Slots<V> { Slots(None, None) }

  /** `isSuccess()`: a result is present. A successful promise is done. */
  predicate IsSuccess<V>(s: Slots<V>): (b: bool)
    ensures b <==> s.result.Some?
    ensures b ==> IsDone(s)
  {
    s.result.Some?
  }

  /** `isDone()`: a result or a cause is present, so a promise is pending
      exactly when both slots are still null, as when it was created. */
  predicate IsDone<V>(s: Slots<V>): (b: bool)
    ensures !b <==> s == Fresh()
  {
    s.result.Some? || s.cause.Some?
  }

  /** `isCancelled()`: cancellation is not supported, so no promise is ever
      cancelled. */
  predicate IsCancelled<V>(s: Slots<V>): (b: bool)
    ensures !b
  {
    false
  }

  /** A result and a cause are never both present. */
  predicate Exclusive<V>(s: Slots<V>) { !(s.result.Some? && s.cause.Some?) }

  /** What a completion call does: it returns (with the slots it leaves) or throws. */
  datatype Step<V> = Returned(next: Slots<V>) | Threw(e: Exception)

  /** `setSuccess(v)`: refused on a done promise; otherwise `v` is published
      into `result`. A null `v` is published too, which leaves the promise
      pending. */
  function SetSuccess<V>(s: Slots<V>, v: Option<V>): (r: Step<V>)
    ensures r.Threw? <==> IsDone(s)
    ensures r.Threw? ==> r.e == IllegalState
    ensures r.Returned? ==> r.next.result == v && r.next.cause.None?
    ensures r.Returned? ==> (IsDone(r.next) <==> v.Some?) && (IsSuccess(r.next) <==> v.Some?)
  {
    if IsDone(s) then Threw(IllegalState) else Returned(Slots(v, s.cause))
  }

  /** `setFailure(c)`: refused on a done promise; otherwise `c` is published
      into `cause` and `result` is left as it was (null). */
  function SetFailure<V>(s: Slots<V>, c: Option<Throwable>): (r: Step<V>)
    ensures r.Threw? <==> IsDone(s)
    ensures r.Threw? ==> r.e == IllegalState
    ensures r.Returned? ==> r.next.cause == c && r.next.result == s.result && r.next.result.None?
    ensures r.Returned? ==> (IsDone(r.next) <==> c.Some?) && !IsSuccess(r.next)
  {
    if IsDone(s) then Threw(IllegalState) else Returned(Slots(s.result, c))
  }

  /** `cancel(mayInterruptIfRunning)` always throws. */
  function Cancel<V>(s: Slots<V>, mayInterruptIfRunning: bool): (r: Step<V>)
    ensures r.Threw? && r.e == UnsupportedOperation
  {
    Threw(UnsupportedOperation)
  }

  /** The calls that act on the slots. */
  datatype Op<V> =
    | SetSuccessOp(v: Option<V>)
    | SetFailureOp(c: Option<Throwable>)
    | CancelOp(mayInterruptIfRunning: bool)

  function Apply<V>(s: Slots<V>, op: Op<V>): Step<V>
  {
    match op
    case SetSuccessOp(v) => SetSuccess(s, v)
    case SetFailureOp(c) => SetFailure(s, c)
    case CancelOp(b) => Cancel(s, b)
  }

  /** The slots after one call; a call that throws leaves them unchanged. */
  function After<V>(s: Slots<V>, op: Op<V>): Slots<V>
  {
    match Apply(s, op)
    case Returned(next) => next
    case Threw(_) => s
  }

  /** The slots after a sequence of calls, applied one at a time. */
  function Run<V>(s: Slots<V>, ops: seq<Op<V>>): Slots<V>
    decreases |ops|
  {
    if ops == [] then s else Run(After(s, ops[0]), ops[1..])
  }

  /** How many calls of `ops` move the cell from pending to done. */
  function Completions<V>(s: Slots<V>, ops: seq<Op<V>>): nat
    decreases |ops|
  {
    if ops == [] then 0
    else
      var t := After(s, ops[0]);
      (if !IsDone(s) && IsDone(t) then 1 else 0) + Completions(t, ops[1..])
  }

  /** Once done, every further call throws and the slots never change:
      `result`, `cause` and `isSuccess` are stable. */
  lemma {:induction false} DoneIsFinal<V>(s: Slots<V>, ops: seq<Op<V>>)
    requires IsDone(s)
    ensures forall i :: 0 <= i < |ops| ==> Apply(s, ops[i]).Threw?
    ensures Run(s, ops) == s
    ensures Completions(s, ops) == 0
    decreases |ops|
  {
    if ops != [] {
      assert After(s, ops[0]) == s;
      DoneIsFinal(s, ops[1..]);
    }
  }

  /** Completion is one-shot: at most one call of any sequence completes the
      cell, and the cell ends done exactly when it started done or one call
      completed it. */
  lemma {:induction false} AtMostOneCompletion<V>(s: Slots<V>, ops: seq<Op<V>>)
    ensures Completions(s, ops) <= 1
    ensures IsDone(Run(s, ops)) <==> IsDone(s) || Completions(s, ops) == 1
    decreases |ops|
  {
    if ops != [] {
      var t := After(s, ops[0]);
      if IsDone(t) {
        DoneIsFinal(t, ops[1..]);
      } else {
        AtMostOneCompletion(t, ops[1..]);
      }
    }
  }

  /** No sequence of calls ever sets both slots. */
  lemma {:induction false} ExclusiveKept<V>(s: Slots<V>, ops: seq<Op<V>>)
    requires Exclusive(s)
    ensures Exclusive(Run(s, ops))
    decreases |ops|
  {
    if ops != [] {
      ExclusiveKept(After(s, ops[0]), ops[1..]);
    }
  }

  /** `cancel` throws `UnsupportedOperationException` on every promise, leaves
      the slots unchanged, and `isCancelled` stays false. */
  lemma CancelIsUnsupported<V>(s: Slots<V>, mayInterruptIfRunning: bool)
    ensures Apply(s, CancelOp(mayInterruptIfRunning)) == Threw(UnsupportedOperation)
    ensures After(s, CancelOp(mayInterruptIfRunning)) == s
    ensures !IsCancelled(After(s, CancelOp(mayInterruptIfRunning)))
  {
  }

  /** Two `setSuccess` calls on a new promise: the first wins, the second
      throws, and the value is the first one. */
  lemma FirstWriterWins<V>(a: V, b: V)
    ensures Apply(Fresh(), SetSuccessOp(Some(a))).Returned?
    ensures Apply(After(Fresh(), SetSuccessOp(Some(a))), SetSuccessOp(Some(b))) == Threw(IllegalState)
    ensures Run(Fresh(), [SetSuccessOp(Some(a)), SetSuccessOp(Some(b))]) == Slots(Some(a), None)
  {
    var s1 := After(Fresh<V>(), SetSuccessOp(Some(a)));
    assert Run(s1, [SetSuccessOp(Some(b))]) == Run(After(s1, SetSuccessOp(Some(b))), []);
  }

  /** What `get` ends in. `Waiting`: the caller is still blocked in `await`. */
  datatype GetOutcome<V> =
    | Value(value: Option<V>)
    | Cancelled(cause: Throwable)
    | ExecutionFailed(cause: Throwable)
    | Interrupted
    | TimedOut
    | Waiting

  /** The value or exception `get` produces once its wait has returned: the
      result when no cause is present, a cancellation cause rethrown as it
      is, and any other cause wrapped in `ExecutionException`. */
  function Report<V>(s: Slots<V>): (r: GetOutcome<V>)
    ensures r.Value? <==> s.cause.None?
    ensures r.Value? ==> r.value == s.result
    ensures s.cause.Some? && s.cause.value.CancellationException? ==> r == Cancelled(s.cause.value)
    ensures s.cause.Some? && !s.cause.value.CancellationException? ==> r == ExecutionFailed(s.cause.value)
  {
    match s.cause
    case None => Value(s.result)
    case Some(c) => if c.CancellationException? then Cancelled(c) else ExecutionFailed(c)
  }

  /** Untimed `get()`. `await()` returns at once on a done promise and throws
      when the caller was interrupted before waiting. Otherwise it waits until
      it observes the promise done: `woke` is the cell when a wake-up
      observes it, or `None` when no wake-up ever comes. A wake-up that finds
      the promise still pending waits again. */
  function Get<V>(s: Slots<V>, interrupted: bool, woke: Option<Slots<V>>): (r: GetOutcome<V>)
    ensures IsDone(s) ==> r == Report(s)
    ensures IsDone(s) && Exclusive(s) ==> (r.Value? <==> IsSuccess(s))
    ensures !IsDone(s) && interrupted ==> r == Interrupted
    ensures !IsDone(s) && !interrupted ==>
              r == (if woke.Some? && IsDone(woke.value) then Report(woke.value) else Waiting)
    ensures !r.TimedOut?
  {
    match Await.Untimed(IsDone(s), interrupted)
    case Return => Report(s)
    case ThrowInterrupted => Interrupted
    case Wait(_) =>
      match woke
      case Some(t) => if IsDone(t) then Report(t) else Waiting
      case None => Waiting
  }

  /** Timed `get(timeout, unit)` over the `await(timeout)` as written. `atCall`
      is the cell when `await(timeout)` is entered; `woke` is the cell when the
      wait loop returns (at a completion, or at a wake-up after the deadline),
      or `None` when it never returns, as happens when a `wait(0)` is never
      notified. A cell still not done when `await` returns gives
      `TimeoutException`. */
  function TimedGet<V>(atCall: Slots<V>, interrupted: bool, timeoutNanos: int, woke: Option<Slots<V>>): (r: GetOutcome<V>)
    requires timeoutNanos >= 0
    ensures IsDone(atCall) ==> r == Report(atCall)
    ensures !IsDone(atCall) && interrupted ==> r == Interrupted
    ensures !IsDone(atCall) && !interrupted ==> (r == Waiting <==> woke.None?)
    ensures !IsDone(atCall) && !interrupted && woke.Some? ==>
              r == (if IsDone(woke.value) then Report(woke.value) else TimedOut)
  {
    match Await.Enter(IsDone(atCall), interrupted, timeoutNanos)
    case Return => Report(atCall)
    case ThrowInterrupted => Interrupted
    case Wait(_) =>
      match woke
      case Some(t) => if IsDone(t) then Report(t) else TimedOut
      case None => Waiting
  }

  /** Timed `get(timeout, unit)` over the corrected `await(timeout)`: every
      wait is bounded, so `await` always returns; `atDeadline` is the cell when
      it does. A zero timeout returns at once. */
  function CorrectedTimedGet<V>(atCall: Slots<V>, interrupted: bool, timeoutNanos: int, atDeadline: Slots<V>): (r: GetOutcome<V>)
    requires timeoutNanos >= 0
    ensures IsDone(atCall) ==> r == Report(atCall)
    ensures !IsDone(atCall) && interrupted ==> r == Interrupted
    ensures !IsDone(atCall) && !interrupted && timeoutNanos == 0 ==> r == TimedOut
    ensures !IsDone(atCall) && !interrupted && timeoutNanos > 0 ==>
              r == (if IsDone(atDeadline) then Report(atDeadline) else TimedOut)
    ensures !r.Waiting?
  {
    match Await.CorrectedEnter(IsDone(atCall), interrupted, timeoutNanos)
    case Return => if IsDone(atCall) then Report(atCall) else TimedOut
    case ThrowInterrupted => Interrupted
    case Wait(_) => if IsDone(atDeadline) then Report(atDeadline) else TimedOut
  }

  /** `get(0, unit)` on a pending promise: as written it waits in `wait(0)`
      until notified, so it returns a later completion's value or never
      returns; corrected, it throws `TimeoutException` at once. */
  lemma ZeroTimeoutGet<V>(v: V, later: Slots<V>)
    ensures Await.Enter(false, false, 0) == Await.Wait(Await.Unbounded)
    ensures TimedGet(Fresh<V>(), false, 0, None) == Waiting
    ensures TimedGet(Fresh(), false, 0, Some(Slots(Some(v), None))) == Value(Some(v))
    ensures CorrectedTimedGet(Fresh(), false, 0, later) == TimedOut
  {
  }

  /** `get` after a successful `setSuccess(v)` returns `v`; after
      `setFailure(c)` it rethrows a cancellation or wraps any other cause. */
  lemma GetAfterCompletion<V>(v: V, c: Throwable, interrupted: bool, woke: Option<Slots<V>>)
    ensures Get(After(Fresh(), SetSuccessOp(Some(v))), interrupted, woke) == Value(Some(v))
    ensures Get(After(Fresh<V>(), SetFailureOp(Some(c))), interrupted, woke) ==
              (if c.CancellationException? then Cancelled(c) else ExecutionFailed(c))
  {
  }
}
