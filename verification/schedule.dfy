/**
 * The event schedulers of the four periodic tasks (keep-alive, text scroll,
 * progress tick, elapsed tick).
 *
 * Each scheduler keeps a queue of entries; the owner remembers the entry it
 * armed last (nothing before the first arming).  Cancelling removes that
 * entry; when it is not queued (it already fired, was cancelled before, or
 * nothing was ever armed) the scheduler raises an error that every caller
 * swallows, so cancelling is then a no-op.  The scheduler keeps its queue as
 * a heap that it re-heapifies after a removal, so only the set of entries is
 * modelled: every entry carries its own due time and sequence number, so no
 * two queued entries are equal.
 */
module Schedule {

  datatype Option<T> = None | Some(value: T)

  type Handle = nat

  /** The remembered entry `w` is still queued. */
  predicate Queued(queue: set<Handle>, w: Option<Handle>) {
    w.Some? && w.value in queue
  }

  /** The queue after cancelling `w`; one that is not queued changes nothing. */
  function Cancelled(queue: set<Handle>, w: Option<Handle>): (r: set<Handle>)
    ensures !Queued(r, w)
    ensures !Queued(queue, w) ==> r == queue
    ensures forall h | w != Some(h) :: h in r <==> h in queue
    ensures r <= queue
  {
    if w.Some? then queue - {w.value} else queue
  }

  /** Cancelling twice is the same as cancelling once (the second is a no-op). */
  lemma {:induction false} CancelledTwice(queue: set<Handle>, w: Option<Handle>)
    ensures Cancelled(Cancelled(queue, w), w) == Cancelled(queue, w)
  {
    assert !Queued(Cancelled(queue, w), w);
  }

  /** Cancelling a freshly armed entry restores the queue it was armed on. */
  lemma {:induction false} CancelUndoesEnter(queue: set<Handle>, h: Handle)
    requires h !in queue
    ensures Cancelled(queue + {h}, Some(h)) == queue
  {
    assert Cancelled(queue + {h}, Some(h)) == queue - {h};
  }

  class Scheduler {
    var queue: set<Handle>

    constructor ()
      ensures queue == {}
    {
      queue := {};
    }

    /** Arms the new entry `h` and hands it back as the handle to cancel it by. */
    method Enter(h: Handle) returns (w: Option<Handle>)
      requires h !in queue
      modifies this
      ensures queue == old(queue) + {h} && w == Some(h)
      ensures Queued(queue, w)
    {
      queue := queue + {h};
      w := Some(h);
    }

    /** Cancels `w`; an entry that is not queued is the swallowed error and leaves the queue alone. */
    method Cancel(w: Option<Handle>)
      modifies this
      ensures queue == Cancelled(old(queue), w)
    {
      if w.Some? && w.value in queue {
        queue := queue - {w.value};
      }
    }
  }
}
