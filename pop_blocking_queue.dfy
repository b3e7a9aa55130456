/**
 * The unbounded FIFO `PopBlockQueue<T>` of include/pop_blocking_queue.h.
 *
 * The mutex and the condition variable that make the C++ class thread-safe
 * are not modelled: every operation is one atomic step, and the wait inside
 * `pop` becomes the precondition that the queue is non-empty.
 */
module BlockingQueue {

  class PopBlockQueue<T> {
    /** The `std::queue` member, front first. */
    var queue: seq<T>
    /** Every item ever pushed, in push order. */
    ghost var pushed: seq<T>
    /** How many items have been popped so far. */
    ghost var popped: nat

    /** The queue holds exactly the pushed items that have not been popped yet. */
    ghost predicate Valid()
      reads this
    {
      popped <= |pushed| && queue == pushed[popped..]
    }

    constructor ()
      ensures Valid()
      ensures queue == [] && pushed == [] && popped == 0
    {
      queue := [];
      pushed := [];
      popped := 0;
    }

    /** The current length: the number of pushes minus the number of pops. */
    method Size() returns (n: nat)
      requires Valid()
      ensures n == |queue|
      ensures n == |pushed| - popped
    {
      n := |queue|;
    }

    /** Removes and returns the head; the C++ waits while the queue is empty. */
    method Pop() returns (x: T)
      requires Valid()
      requires |queue| > 0
      modifies this
      ensures Valid()
      ensures x == old(queue)[0]
      ensures queue == old(queue)[1..]
      ensures pushed == old(pushed) && popped == old(popped) + 1
      // items leave in the order they were pushed
      ensures x == pushed[old(popped)]
    {
      x := queue[0];
      queue := queue[1..];
      popped := popped + 1;
    }

    /** Appends to the tail; there is no capacity and no failure. */
    method Push(x: T)
      requires Valid()
      modifies this
      ensures Valid()
      ensures queue == old(queue) + [x]
      ensures pushed == old(pushed) + [x] && popped == old(popped)
    {
      queue := queue + [x];
      pushed := pushed + [x];
    }
  }

  /** Pushing `xs` onto a new queue and popping |xs| times gives back `xs`. */
  method PushAllThenPopAll<T>(xs: seq<T>) returns (ys: seq<T>, left: nat)
    ensures ys == xs
    ensures left == 0
  {
    var q := new PopBlockQueue<T>();
    for i := 0 to |xs|
      invariant q.Valid() && q.queue == xs[..i]
    {
      q.Push(xs[i]);
    }
    ys := [];
    for i := 0 to |xs|
      invariant q.Valid() && q.queue == xs[i..]
      invariant ys == xs[..i]
    {
      var x := q.Pop();
      ys := ys + [x];
    }
    left := q.Size();
  }

  /** A push onto an empty queue followed by a pop returns the pushed item. */
  method PushThenPopOnEmpty<T>(x: T) returns (y: T, left: nat)
    ensures y == x
    ensures left == 0
  {
    var q := new PopBlockQueue<T>();
    q.Push(x);
    y := q.Pop();
    left := q.Size();
  }
}
