/** P and V on one semaphore, seen alone: its value and the queue of those that wait. The
    nucleus (`Mutex`) and the pager (`PagingProofs`) both refine these two functions. */
module Locks {
  import opened Sequences

  datatype Lock<T> = Lock(value: int, queue: seq<T>)

  /** The semaphore after P by `p`, and whether `p` passes. */
  function P<T>(l: Lock<T>, p: T): (Lock<T>, bool) {
    if l.value - 1 < 0 then (Lock(l.value - 1, l.queue + [p]), false) else (Lock(l.value - 1, l.queue), true)
  }

  /** The semaphore after V, and who passes in consequence. */
  function V<T>(l: Lock<T>): (Lock<T>, Option<T>) {
    if l.value + 1 <= 0 && l.queue != [] then (Lock(l.value + 1, l.queue[1..]), Some(l.queue[0]))
    else (Lock(l.value + 1, l.queue), None)
  }
}
