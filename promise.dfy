/** `AbstractPromise` as a sequential state machine. The atomic
    compare-and-set and the monitor become plain atomic updates; the owning
    event loop is reduced to the answer `inEventLoop()` gives the caller,
    passed to each call as `onLoop`. Listeners registered while a dispatch
    runs are the parameter `late`: `late[i]` is the batch queued during the
    i-th round. `setSuccess` and `setFailure` hold the monitor through their
    dispatch, so there other threads cannot add to it; their contracts hold
    for every `late`, the empty one included. */
module Promises {
  import opened Completion
  import opened Dispatch

  class Promise<V> {
    var result: Option<V>
    var cause: Option<Throwable>
    /** Listeners registered and not yet invoked, in registration order. */
    var listeners: seq<Listener>
    /** Log of listener invocations, in order. */
    ghost var fired: seq<Listener>
    /** Every registration so far, in order. */
    ghost var registered: seq<Listener>

    function State(): Slots<V>
      reads this
    {
      Slots(result, cause)
    }

    /** The slots are exclusive, and every registration has been invoked
        exactly once, in order, or is still queued. */
    ghost predicate Valid()
      reads this
    {
      Exclusive(State()) && registered == fired + listeners
    }

    constructor ()
      ensures Valid()
      ensures State() == Fresh() && listeners == [] && fired == [] && registered == []
    {
      result := None;
      cause := None;
      listeners := [];
      fired := [];
      registered := [];
    }

    predicate IsSuccess(): (b: bool)
      reads this
      ensures b <==> result.Some?
    {
      Completion.IsSuccess(State())
    }

    predicate IsDone(): (b: bool)
      reads this
      ensures b <==> result.Some? || cause.Some?
    {
      Completion.IsDone(State())
    }

    predicate IsCancelled(): (b: bool)
      reads this
      ensures !b
    {
      Completion.IsCancelled(State())
    }

    /** Appends `l` to the queue and, if the promise is already done,
        dispatches (which only happens on the owning loop). */
    method AddListener(l: Listener, onLoop: bool, late: seq<seq<Listener>>)
      requires Valid()
      modifies this
      ensures Valid() && State() == old(State())
      ensures !(IsDone() && onLoop) ==>
                listeners == old(listeners) + [l] && fired == old(fired) && registered == old(registered) + [l]
      ensures IsDone() && onLoop ==>
                listeners == [] && fired == registered && fired == old(fired) + Order(old(listeners) + [l], late)
    {
      listeners := listeners + [l];
      registered := registered + [l];
      if IsDone() {
        NotifyListeners(onLoop, late);
      }
    }

    /** Off the owning loop: returns at once. On it: drains the queue in
        snapshot-and-swap rounds until a round finds it empty. */
    method NotifyListeners(onLoop: bool, late: seq<seq<Listener>>)
      requires Valid()
      modifies this
      ensures Valid() && State() == old(State())
      ensures !onLoop ==>
                listeners == old(listeners) && fired == old(fired) && registered == old(registered)
      ensures onLoop ==>
                listeners == [] && fired == registered && fired == old(fired) + Order(old(listeners), late)
    {
      if !onLoop {
        return;
      }
      if listeners == [] {
        return;
      }
      var batch := listeners;
      listeners := [];
      var rest := late;
      while batch != []
        invariant State() == old(State())
        invariant listeners == [] && registered == fired + batch
        invariant fired + Order(batch, rest) == old(fired) + Order(old(listeners), late)
        decreases |rest| + (if batch == [] then 0 else 1)
      {
        ghost var done, remaining := fired, rest;
        InvokeAll(batch);
        assert registered == fired == done + batch;
        // Listeners queued by other threads during this round.
        var arrived: seq<Listener> := [];
        if rest != [] {
          arrived := rest[0];
          rest := rest[1..];
        }
        Dispatch.OrderRound(batch, remaining);
        listeners := listeners + arrived;
        registered := registered + arrived;
        batch := listeners;
        listeners := [];
      }
    }

    /** Invokes every listener of a snapshot, in order. An `Exception` thrown
        by a listener is logged and the remaining listeners are still invoked;
        an `Error` is not caught and is outside this model. */
    method InvokeAll(batch: seq<Listener>)
      modifies this`fired
      ensures fired == old(fired) + batch
    {
      for i := 0 to |batch|
        invariant fired == old(fired) + batch[..i]
      {
        fired := fired + [batch[i]];
      }
      assert batch[..|batch|] == batch;
    }

    /** Throws `IllegalStateException` on a done promise and changes nothing;
        otherwise publishes `v` and attempts a dispatch. */
    method SetSuccess(v: Option<V>, onLoop: bool, late: seq<seq<Listener>>) returns (thrown: Option<Exception>)
      requires Valid()
      modifies this
      ensures Valid()
      ensures Completion.SetSuccess(old(State()), v).Threw? ==>
                thrown == Some(IllegalState) && State() == old(State()) &&
                listeners == old(listeners) && fired == old(fired) && registered == old(registered)
      ensures Completion.SetSuccess(old(State()), v).Returned? ==>
                thrown == None && State() == Completion.SetSuccess(old(State()), v).next
      ensures Completion.SetSuccess(old(State()), v).Returned? && !onLoop ==>
                listeners == old(listeners) && fired == old(fired) && registered == old(registered)
      ensures Completion.SetSuccess(old(State()), v).Returned? && onLoop ==>
                listeners == [] && fired == registered && fired == old(fired) + Order(old(listeners), late)
    {
      if IsDone() {
        return Some(IllegalState);
      }
      result := v;
      NotifyListeners(onLoop, late);
      return None;
    }

    /** Throws `IllegalStateException` on a done promise and changes nothing;
        otherwise publishes `c` and attempts a dispatch. */
    method SetFailure(c: Option<Throwable>, onLoop: bool, late: seq<seq<Listener>>) returns (thrown: Option<Exception>)
      requires Valid()
      modifies this
      ensures Valid()
      ensures Completion.SetFailure(old(State()), c).Threw? ==>
                thrown == Some(IllegalState) && State() == old(State()) &&
                listeners == old(listeners) && fired == old(fired) && registered == old(registered)
      ensures Completion.SetFailure(old(State()), c).Returned? ==>
                thrown == None && State() == Completion.SetFailure(old(State()), c).next
      ensures Completion.SetFailure(old(State()), c).Returned? && !onLoop ==>
                listeners == old(listeners) && fired == old(fired) && registered == old(registered)
      ensures Completion.SetFailure(old(State()), c).Returned? && onLoop ==>
                listeners == [] && fired == registered && fired == old(fired) + Order(old(listeners), late)
    {
      if IsDone() {
        return Some(IllegalState);
      }
      cause := c;
      NotifyListeners(onLoop, late);
      return None;
    }

    /** Always throws `UnsupportedOperationException`. */
    method Cancel(mayInterruptIfRunning: bool) returns (thrown: Exception)
      ensures Completion.Cancel(State(), mayInterruptIfRunning) == Threw(thrown)
      ensures thrown == UnsupportedOperation && !IsCancelled()
    {
      return UnsupportedOperation;
    }
  }
}
