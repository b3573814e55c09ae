/**
 * `throttle(func, ms)` from utils.js: the returned `wrapper` calls `func` at once when idle
 * and then ignores calls for `ms` milliseconds, remembering only the latest one, which is
 * replayed when the timer fires. The timer is an explicit event here (`TimerFires`).
 */
module Throttle {
  import opened Wrappers

  /** The closure state of one throttled wrapper; `T` is a call's receiver and arguments. */
  class Throttled<T> {
    var isThrottled: bool
    /** `savedArgs`/`savedThis`: the latest call made while throttled, or none. */
    var saved: Option<T>
    /** Whether a `setTimeout` callback is scheduled and has not fired yet. */
    var timerPending: bool
    /** The calls made to `func`, in order. */
    var invoked: seq<T>
    /** How many times the wrapper has been called from outside. */
    ghost var calls: nat

    /**
     * The throttle is busy exactly while a timer is pending, only a busy throttle holds a
     * saved call, and `func` (with the call still saved) has never run more often than the
     * wrapper was called.
     */
    ghost predicate Valid()
      reads this
    {
      && isThrottled == timerPending
      && (saved.Some? ==> isThrottled)
      && |invoked| + (if saved.Some? then 1 else 0) <= calls
    }

    /** `throttle(func, ms)`: idle, nothing saved, nothing called. */
    constructor ()
      ensures Valid() && !isThrottled && !timerPending && saved == None && invoked == [] && calls == 0
    {
      isThrottled := false;
      saved := None;
      timerPending := false;
      invoked := [];
      calls := 0;
    }

    /** The body of `wrapper`, run for an outside call or replayed by the timer. */
    method Wrapper(args: T)
      modifies this`isThrottled, this`saved, this`timerPending, this`invoked
      ensures old(isThrottled) ==> saved == Some(args) && invoked == old(invoked)
                                   && isThrottled && timerPending == old(timerPending)
      ensures !old(isThrottled) ==> invoked == old(invoked) + [args] && isThrottled && timerPending
                                    && saved == old(saved)
    {
      if isThrottled {
        saved := Some(args);
        return;
      }
      invoked := invoked + [args];
      isThrottled := true;
      timerPending := true;
    }

    /**
     * An outside call: from idle `func` runs once, at once, and the throttle turns busy;
     * while busy `func` does not run and only the latest arguments are kept.
     */
    method Call(args: T)
      requires Valid()
      modifies this
      ensures Valid() && calls == old(calls) + 1
      ensures old(isThrottled) ==> invoked == old(invoked) && saved == Some(args) && isThrottled
      ensures !old(isThrottled) ==> invoked == old(invoked) + [args] && saved == None && isThrottled
    {
      calls := calls + 1;
      Wrapper(args);
    }

    /**
     * The pending timer fires: with nothing saved the throttle goes idle; otherwise the
     * saved call runs `func` once, a new timer starts and the saved call is dropped.
     */
    method TimerFires()
      requires Valid() && timerPending
      modifies this
      ensures Valid() && calls == old(calls) && saved == None
      ensures old(saved) == None ==> !isThrottled && !timerPending && invoked == old(invoked)
      ensures old(saved).Some? ==> isThrottled && timerPending && invoked == old(invoked) + [old(saved).value]
    {
      timerPending := false;
      isThrottled := false;
      if saved.Some? {
        Wrapper(saved.value);
        saved := None;
      }
    }
  }
}
