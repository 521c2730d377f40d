/** The bounded FIFO under the event queues. A capacity of zero means no bound. What another thread does
    while a call waits is a parameter: it takes an element, or it pushes one. */
module BlockingQueues {
  import opened Types

  class BlockingQueue<T> {
    const capacity: nat
    var deque: seq<T>
    ghost var pushed: seq<T>      // everything ever accepted
    ghost var popped: seq<T>      // everything ever handed out

    /** First in, first out, and never over capacity. */
    ghost predicate Valid()
      reads this
    {
      && popped + deque == pushed
      && (capacity > 0 ==> |deque| <= capacity)
    }

    predicate NotFull()
      reads this
    {
      capacity == 0 || |deque| < capacity
    }

    /** The same, told from what went in and what came out. */
    ghost predicate HasRoom()
      reads this
    {
      capacity == 0 || |pushed| < |popped| + capacity
    }

    constructor (capacity: nat)
      ensures Valid() && this.capacity == capacity && pushed == popped == []
    {
      this.capacity := capacity;
      deque, pushed, popped := [], [], [];
    }

    method Append(t: T)
      requires Valid() && NotFull()
      modifies this
      ensures Valid() && pushed == old(pushed) + [t] && popped == old(popped)
    {
      deque := deque + [t];
      pushed := pushed + [t];
    }

    method Take() returns (t: T)
      requires Valid() && deque != []
      modifies this
      ensures Valid() && pushed == old(pushed) && popped == old(popped) + [t]
      ensures t == pushed[|old(popped)|]
    {
      t := deque[0];
      deque := deque[1..];
      popped := popped + [t];
    }

    /** Accepted if there is room, or if another thread makes room during the wait. */
    method PushWithTimeout(t: T, madeRoom: bool) returns (accepted: bool)
      requires Valid()
      modifies this
      ensures Valid()
      ensures accepted <==> old(HasRoom()) || madeRoom
      ensures pushed == if accepted then old(pushed) + [t] else old(pushed)
      ensures popped == if accepted && !old(HasRoom()) then pushed[..|old(popped)| + 1] else old(popped)
    {
      if !NotFull() {
        if !madeRoom {
          return false;
        }
        var _ := Take();
      }
      Append(t);
      accepted := true;
    }

    /** Waits for room, so it returns only if there is some in the end. */
    method Push(t: T, madeRoom: bool)
      requires Valid() && (HasRoom() || madeRoom)
      modifies this
      ensures Valid() && pushed == old(pushed) + [t]
      ensures popped == if old(HasRoom()) then old(popped) else pushed[..|old(popped)| + 1]
    {
      var accepted := PushWithTimeout(t, madeRoom);
    }

    /** The oldest element, or the one that arrives during the wait. */
    method PopWithTimeout(arrival: Option<T>) returns (t: Option<T>)
      requires Valid()
      modifies this
      ensures Valid()
      ensures t.None? <==> old(popped) == old(pushed) && arrival.None?
      ensures var arrives := old(popped) == old(pushed) && arrival.Some?;
              pushed == if arrives then old(pushed) + [arrival.value] else old(pushed)
      ensures popped == if t.Some? then old(popped) + [t.value] else old(popped)
      ensures t.Some? ==> popped <= pushed && t.value == pushed[|old(popped)|]
    {
      if deque == [] {
        if arrival.None? {
          return None;
        }
        Append(arrival.value);
      }
      var x := Take();
      t := Some(x);
    }

    /** Waits for an element, so it returns only if there is one in the end. */
    method Pop(arrival: Option<T>) returns (t: T)
      requires Valid() && (deque != [] || arrival.Some?)
      modifies this
      ensures Valid() && popped == old(popped) + [t] && old(pushed) <= pushed
      ensures t == if old(popped) == old(pushed) then arrival.value else old(pushed)[|old(popped)|]
    {
      var x := PopWithTimeout(arrival);
      t := x.value;
    }

    method Size() returns (n: nat)
      requires Valid()
      ensures n == |pushed| - |popped|
    {
      n := |deque|;
    }
  }
}
