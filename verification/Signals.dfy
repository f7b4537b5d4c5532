/** A wake-up signal with one waiter: `CoroutineSignal`. */
module Signals {

  /** `Blocked` sleeps until notified; `Woken` has been notified and waits for the scheduler. */
  datatype Waiter = Running | Blocked | Woken

  datatype Signal = Signal(pending: bool, waiter: Waiter) {
    /** Sets the flag and makes a sleeping waiter runnable; it does not switch to it. */
    function Notify(): Signal { Signal(true, if waiter.Blocked? then Woken else waiter) }

    /** Consumes a notification and carries on, or goes to sleep. */
    function Wait(): Signal { if pending then Signal(false, Running) else Signal(false, Blocked) }

    /** The scheduler continues a woken waiter, which clears the flag. */
    function Resume(): Signal { Signal(false, Running) }
  }

  const IdleSignal := Signal(false, Running)

  class CoroutineSignal {
    var pending: bool
    var waiter: Waiter

    constructor ()
      ensures Valid() && View() == IdleSignal
    {
      pending, waiter := false, Running;
    }

    ghost function View(): Signal
      reads this
    {
      Signal(pending, waiter)
    }

    /** Nobody sleeps on a notification: a pending one finds the waiter awake, or has woken it. */
    ghost predicate Valid()
      reads this
    {
      (waiter.Blocked? ==> !pending) && (waiter.Woken? ==> pending)
    }

    method Notify()
      requires Valid()
      modifies this
      ensures Valid() && !waiter.Blocked? && pending && (waiter.Running? <==> old(waiter).Running?) && View() == old(View()).Notify()
    {
      pending := true;
      if waiter.Blocked? { waiter := Woken; }
    }

    /** Up to the point where the coroutine has to sleep, if it has to. */
    method Wait()
      requires Valid() && waiter.Running?
      modifies this
      ensures Valid() && (waiter.Blocked? <==> !old(pending)) && !pending && View() == old(View()).Wait()
    {
      if !pending {
        waiter := Blocked;
        return;
      }
      pending := false;
    }

    /** The scheduler returns to a woken waiter. */
    method Resume()
      requires Valid() && waiter.Woken?
      modifies this
      ensures Valid() && waiter.Running? && !pending && View() == old(View()).Resume()
    {
      pending, waiter := false, Running;
    }
  }
}
