/** The decisions `await()` and `await(timeout, unit)` take: return, throw
    `InterruptedException`, or call `Object.wait` with some bound. The clock,
    the wait itself and wake-ups are not modelled: whether the promise is
    done, whether the caller was interrupted and how much time is left are
    parameters. */
module Await {

  const NanosPerMilli: nat := 1000000

  /** A call of `Object.wait`: `wait(0)` waits until notified, without any
      time bound; `wait(ms)` for positive `ms` waits at most about `ms`. */
  datatype WaitCall = Unbounded | Bounded(millis: nat)

  datatype Action = Return | ThrowInterrupted | Wait(call: WaitCall)

  /** `Object.wait(millis)` for a non-negative argument. */
  function ObjectWait(millis: nat): WaitCall
  {
    if millis == 0 then Unbounded else Bounded(millis)
  }

  /** `await()`: a done promise returns at once, an interrupted caller
      throws, and otherwise the caller waits until notified. */
  function Untimed(done: bool, interrupted: bool): (a: Action)
    ensures a == Return <==> done
    ensures a == ThrowInterrupted <==> !done && interrupted
    ensures a.Wait? ==> a.call.Unbounded?
  {
    if done then Return
    else if interrupted then ThrowInterrupted
    else Wait(Unbounded)
  }

  /** As written: the wait with `timeLeftNanos` left is
      `wait(timeLeftNanos / 1000000)`, which truncates to whole milliseconds. */
  function WaitFor(timeLeftNanos: nat): (w: WaitCall)
    ensures w.Unbounded? <==> timeLeftNanos < NanosPerMilli
    ensures w.Bounded? ==> w.millis * NanosPerMilli <= timeLeftNanos < (w.millis + 1) * NanosPerMilli
  {
    ObjectWait(timeLeftNanos / NanosPerMilli)
  }

  /** As written: entering `await(timeout, unit)` with `timeoutNanos` after
      the non-negativity check. */
  function Enter(done: bool, interrupted: bool, timeoutNanos: int): (a: Action)
    requires timeoutNanos >= 0
    ensures a == Return <==> done
    ensures a == ThrowInterrupted <==> !done && interrupted
    ensures a.Wait? ==> (a.call.Unbounded? <==> timeoutNanos < NanosPerMilli)
  {
    if done then Return
    else if interrupted then ThrowInterrupted
    else Wait(WaitFor(timeoutNanos))
  }

  /** As written: after a wait ends with `timeLeftNanos` left (zero or less
      once the deadline has passed). */
  function Resume(done: bool, timeLeftNanos: int): (a: Action)
    ensures a == Return <==> done || timeLeftNanos <= 0
    ensures a.Wait? ==> (a.call.Unbounded? <==> timeLeftNanos < NanosPerMilli)
  {
    if timeLeftNanos <= 0 then Return
    else if done then Return
    else Wait(WaitFor(timeLeftNanos))
  }

  /** A timed wait on a pending promise with less than a millisecond left,
      and in particular `await(0, unit)`, waits without any time bound: it
      returns only when the promise completes. */
  lemma SubMillisecondWaitIsUnbounded(timeLeftNanos: nat)
    requires timeLeftNanos < NanosPerMilli
    ensures Enter(false, false, timeLeftNanos) == Wait(Unbounded)
    ensures timeLeftNanos > 0 ==> Resume(false, timeLeftNanos) == Wait(Unbounded)
    ensures Enter(false, false, 0) == Wait(Unbounded)
  {
  }

  /** Corrected: a positive time left is rounded up to whole milliseconds,
      so the wait is always bounded and ends less than a millisecond after
      the deadline. */
  function CorrectedWaitFor(timeLeftNanos: int): (w: WaitCall)
    requires timeLeftNanos > 0
    ensures w.Bounded? && w.millis >= 1
    ensures (w.millis - 1) * NanosPerMilli < timeLeftNanos <= w.millis * NanosPerMilli
  {
    Bounded((timeLeftNanos + NanosPerMilli - 1) / NanosPerMilli)
  }

  /** Corrected entry: a zero timeout returns at once instead of waiting. */
  function CorrectedEnter(done: bool, interrupted: bool, timeoutNanos: int): (a: Action)
    requires timeoutNanos >= 0
    ensures a == Return <==> done || (!interrupted && timeoutNanos == 0)
    ensures a == ThrowInterrupted <==> !done && interrupted
    ensures a.Wait? ==> a.call.Bounded?
    ensures a.Wait? ==> (a.call.millis - 1) * NanosPerMilli < timeoutNanos <= a.call.millis * NanosPerMilli
  {
    if done then Return
    else if interrupted then ThrowInterrupted
    else if timeoutNanos == 0 then Return
    else Wait(CorrectedWaitFor(timeoutNanos))
  }

  /** Corrected resumption: every further wait is bounded by the time left. */
  function CorrectedResume(done: bool, timeLeftNanos: int): (a: Action)
    ensures a == Return <==> done || timeLeftNanos <= 0
    ensures a.Wait? ==> a.call.Bounded?
    ensures a.Wait? ==> (a.call.millis - 1) * NanosPerMilli < timeLeftNanos <= a.call.millis * NanosPerMilli
  {
    if timeLeftNanos <= 0 then Return
    else if done then Return
    else Wait(CorrectedWaitFor(timeLeftNanos))
  }
}
