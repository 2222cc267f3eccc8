/** A restartable one-shot timer over `setTimeout` and `clearTimeout`. */
module BridgeTimer {
  import opened Unicode

  /** The host's timers: `live` holds the handles that may still fire. */
  class TimerApi {
    var live: set<nat>
    var next: nat

    ghost predicate Valid()
      reads this
    {
      forall handle | handle in live :: handle < next
    }

    constructor ()
      ensures Valid() && live == {}
    {
      live, next := {}, 0;
    }

    method SetTimeout() returns (handle: nat)
      requires Valid()
      modifies this
      ensures Valid() && handle == old(next) && next == handle + 1 && live == old(live) + {handle}
    {
      handle := next;
      live := live + {handle};
      next := next + 1;
    }

    method ClearTimeout(handle: nat)
      requires Valid()
      modifies this
      ensures Valid() && live == old(live) - {handle} && next == old(next)
    {
      live := live - {handle};
    }
  }

  class BridgeTimer {
    const api: TimerApi
    var handle: Option<nat>

    /** Every timeout this timer has ever set. */
    ghost var own: set<nat>

    /** Of those at most one can still fire, and one can exactly when the timer says it is active. */
    ghost predicate Valid()
      reads this, api
    {
      && api.Valid()
      && (forall h | h in own :: h < api.next)
      && own * api.live == (if handle.Some? then {handle.value} else {})
    }

    constructor (api: TimerApi)
      requires api.Valid()
      ensures Valid() && this.api == api && handle == None && own == {}
    {
      this.api := api;
      handle := None;
      own := {};
    }

    /** A second start replaces the first. */
    method Start()
      requires Valid()
      modifies this, api
      ensures Valid() && handle.Some? && handle.value !in old(own)
      ensures api.live - own == old(api.live - own)
    {
      Cancel();
      var started := api.SetTimeout();
      own := own + {started};
      handle := Some(started);
    }

    method Cancel()
      requires Valid()
      modifies this`handle, api
      ensures Valid() && handle == None
      ensures api.live - own == old(api.live - own) && api.next == old(api.next)
    {
      if handle.Some? {
        api.ClearTimeout(handle.value);
        handle := None;
      }
    }

    predicate IsActive()
      reads this
    {
      handle != None
    }

    /** One of the timer's timeouts fires: it is the current one, never one that was cancelled or
        replaced, and the timer is inactive before its callback runs. */
    method Expire(fired: nat)
      requires Valid() && fired in own && fired in api.live
      modifies this`handle, api
      ensures old(handle) == Some(fired)
      ensures Valid() && !IsActive()
      ensures api.live - own == old(api.live - own)
    {
      assert fired in own * api.live;
      api.ClearTimeout(fired);
      handle := None;
    }
  }
}
