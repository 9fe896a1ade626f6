/** The bounded FIFO buffer shared by producers and consumers.
    The lock and the two condition variables are not modelled: a call that
    would wait is a call whose precondition does not hold, so `CanPut` and
    `CanGet` are exactly the states in which `put` and `get` fall through
    their wait loops. */
module Buffer {

  class CustomBoundedBuffer<T> {
    /** Fixed at construction; never reassigned. */
    const capacity: nat
    /** The queued items, head first. */
    var buffer: seq<T>

    /** The core invariant: the buffer never holds more than `capacity` items. */
    ghost predicate Valid()
      reads this
    {
      0 < capacity && |buffer| <= capacity
    }

    /** `put` does not wait exactly when this holds. */
    predicate CanPut()
      reads this
    {
      |buffer| < capacity
    }

    /** `get` does not wait exactly when this holds. */
    predicate CanGet()
      reads this
    {
      buffer != []
    }

    constructor (capacity: nat)
      requires 0 < capacity
      ensures Valid()
      ensures this.capacity == capacity && buffer == []
      ensures CanPut() && !CanGet()
    {
      this.capacity := capacity;
      buffer := [];
    }

    /** Appends `item` at the tail. Afterwards a `get` may fire. */
    method Put(item: T)
      requires Valid() && CanPut()
      modifies this
      ensures Valid()
      ensures buffer == old(buffer) + [item]
      ensures CanGet()
    {
      buffer := buffer + [item];
    }

    /** Removes and returns the head. Afterwards a `put` may fire. */
    method Get() returns (item: T)
      requires Valid() && CanGet()
      modifies this
      ensures Valid()
      ensures item == old(buffer)[0] && buffer == old(buffer)[1..]
      ensures CanPut()
    {
      item := buffer[0];
      buffer := buffer[1..];
    }
  }
}
