/**
 * Timers as explicit pending callbacks.  `setTimeout`/`setInterval` register
 * a task under a fresh positive id, `clearTimeout`/`clearInterval` forget
 * it, and the environment fires a pending task (a timeout is no longer
 * pending once it has fired; an interval stays pending).  Delays are not
 * modelled: any pending task may fire next.
 */
module Timers {
  import opened Types

  /** The pending map once the timer a handle refers to (if any) has been cleared. */
  function ClearedOf<T>(pending: map<nat, T>, handle: Option<nat>): map<nat, T> {
    match handle
    case None => pending
    case Some(id) => pending - {id}
  }

  class Scheduler<T> {
    /** The registered callbacks, by id. */
    var pending: map<nat, T>
    /** The id the next registration gets. */
    var next: nat

    ghost predicate Valid()
      reads this
    {
      0 < next && forall id :: id in pending ==> 0 < id < next
    }

    constructor ()
      ensures Valid() && pending == map[]
    {
      pending := map[];
      next := 1;
    }

    /** `setTimeout`/`setInterval`: a fresh id, different from every pending one. */
    method SetTimeout(task: T) returns (id: nat)
      requires Valid()
      modifies this
      ensures Valid()
      ensures id == old(next) && 0 < id && id !in old(pending)
      ensures pending == old(pending)[id := task] && next == old(next) + 1
    {
      id := next;
      pending := pending[id := task];
      next := next + 1;
    }

    /** `clearTimeout`/`clearInterval`: a no-op for an id that is not pending. */
    method ClearTimeout(id: nat)
      requires Valid()
      modifies this
      ensures Valid()
      ensures pending == old(pending) - {id} && next == old(next)
    {
      pending := pending - {id};
    }

    /** A pending timeout fires: it stops being pending and its task is returned to run. */
    method Expire(id: nat) returns (task: T)
      requires Valid() && id in pending
      modifies this
      ensures Valid()
      ensures task == old(pending[id])
      ensures pending == old(pending) - {id} && next == old(next)
    {
      task := pending[id];
      pending := pending - {id};
    }
  }
}
