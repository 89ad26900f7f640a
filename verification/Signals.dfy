/** The in-process registry that hands a held request its wakeup. */
module Signals {
  import opened HubTypes

  /** One held request, bound to the event loop its flag belongs to. A wakeup from elsewhere is only
      scheduled on that loop, which sets the flag when it gets to it. */
  class Waiter {
    const home: nat
    var flag: bool
    var scheduled: bool

    constructor (home: nat)
      ensures this.home == home && !flag && !scheduled
    {
      this.home, flag, scheduled := home, false, false;
    }

    /** Set the flag when called on the home loop, otherwise schedule that; a closed loop drops it. */
    method Wake(running: Option<nat>, closed: bool)
      modifies this
      ensures flag == (old(flag) || running == Some(home))
      ensures scheduled == (old(scheduled) || (running != Some(home) && !closed))
    {
      if running == Some(home) {
        flag := true;
      } else if !closed {
        scheduled := true;
      }
    }

    /** The home loop runs what was scheduled on it. */
    method RunScheduled()
      modifies this
      ensures flag == (old(flag) || old(scheduled)) && !scheduled
    {
      flag, scheduled := flag || scheduled, false;
    }
  }

  class Signals {
    var waiters: map<Key, set<Waiter>>

    /** No key is kept once its last waiter has gone. */
    ghost predicate Valid()
      reads this
    {
      forall k :: k in waiters ==> waiters[k] != {}
    }

    ghost function At(key: Key): set<Waiter>
      reads this
    {
      if key in waiters then waiters[key] else {}
    }

    constructor ()
      ensures Valid() && waiters == map[]
    {
      waiters := map[];
    }

    method Subscribe(key: Key, home: nat) returns (w: Waiter)
      requires Valid()
      modifies this
      ensures Valid() && fresh(w) && !w.flag && !w.scheduled && w.home == home
      ensures At(key) == old(At(key)) + {w}
      ensures forall k :: k != key ==> At(k) == old(At(k))
    {
      w := new Waiter(home);
      waiters := waiters[key := (if key in waiters then waiters[key] else {}) + {w}];
    }

    method Unsubscribe(key: Key, w: Waiter)
      requires Valid()
      modifies this
      ensures Valid()
      ensures At(key) == old(At(key)) - {w}
      ensures forall k :: k != key ==> At(k) == old(At(k))
    {
      if key in waiters {
        var left := waiters[key] - {w};
        waiters := if left == {} then waiters - {key} else waiters[key := left];
      }
    }

    /** Wake every waiter registered for `key` when the snapshot is taken, and nobody else. */
    method Notify(key: Key, running: Option<nat>, closed: set<nat>)
      modifies At(key)
      ensures waiters == old(waiters)
      ensures forall w :: w in At(key) ==>
                && w.flag == (old(w.flag) || running == Some(w.home))
                && w.scheduled == (old(w.scheduled) || (running != Some(w.home) && w.home !in closed))
    {
      var rest := if key in waiters then waiters[key] else {};
      while rest != {}
        invariant rest <= At(key)
        invariant forall w :: w in rest ==> w.flag == old(w.flag) && w.scheduled == old(w.scheduled)
        invariant forall w :: w in At(key) - rest ==>
                    && w.flag == (old(w.flag) || running == Some(w.home))
                    && w.scheduled == (old(w.scheduled) || (running != Some(w.home) && w.home !in closed))
        decreases rest
      {
        var w :| w in rest;
        w.Wake(running, w.home in closed);
        rest := rest - {w};
      }
    }
  }
}
