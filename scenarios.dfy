/** The runs the repository's tests set up, stated as clients of the model:
    each method's contract is what the corresponding test asserts. */
module Scenarios {
  import opened Buffer
  import opened Workers
  import opened Scheduler

  /** A `get` on an empty buffer waits; once an item is put, it returns that
      item and leaves the buffer empty. */
  method PutThenGet<T>(capacity: nat, x: T) returns (waited: bool, got: T, rest: seq<T>)
    requires 0 < capacity
    ensures waited && got == x && rest == []
  {
    var b := new CustomBoundedBuffer<T>(capacity);
    waited := !b.CanGet();
    b.Put(x);
    got := b.Get();
    rest := b.buffer;
  }

  /** With capacity 1, a second `put` waits until a `get` removes the first
      item; then it goes through. */
  method CapacityOneHandOff<T>(first: T, second: T)
    returns (waited: bool, got: T, resumed: bool, rest: seq<T>)
    ensures waited && got == first && resumed && rest == [second]
  {
    var b := new CustomBoundedBuffer<T>(1);
    b.Put(first);
    waited := !b.CanPut();
    got := b.Get();
    resumed := b.CanPut();
    b.Put(second);
    rest := b.buffer;
  }

  /** Putting `xs` into an empty buffer with room for them all and then
      getting `|xs|` times returns `xs` unchanged and in order. */
  method FillThenDrain<T>(capacity: nat, xs: seq<T>) returns (ys: seq<T>, rest: seq<T>)
    requires 0 < capacity && |xs| <= capacity
    ensures ys == xs && rest == []
  {
    var b := new CustomBoundedBuffer<T>(capacity);
    for i := 0 to |xs|
      invariant b.Valid() && b.capacity == capacity
      invariant b.buffer == xs[..i]
    {
      b.Put(xs[i]);
      assert xs[..i + 1] == xs[..i] + [xs[i]];
    }
    ys := [];
    for j := 0 to |xs|
      invariant b.Valid()
      invariant ys == xs[..j] && b.buffer == xs[j..]
    {
      var y := b.Get();
      ys := ys + [y];
      assert xs[..j + 1] == xs[..j] + [xs[j]];
    }
    rest := b.buffer;
  }

  /** The integers `lo`, `lo + 1`, ..., `hi - 1`. */
  function Range(lo: int, hi: int): (r: seq<int>)
    decreases hi - lo
    ensures |r| == if lo < hi then hi - lo else 0
    ensures forall i :: 0 <= i < |r| ==> r[i] == lo + i
  {
    if lo < hi then [lo] + Range(lo + 1, hi) else []
  }

  /** One producer, one consumer, capacity 3, source 1..199: the destination
      equals the source and every thread returns; the sentinel is left over. */
  method IntegrityRun() returns (destination: seq<int>, left: seq<Msg<int>>)
    ensures destination == Range(1, 200) && left == [Stop]
  {
    var source := Range(1, 200);
    var sent, emitted, finals;
    sent, emitted, finals, left := Run(source, 3, 1, false);
    assert source[..sent] == source;
    destination := finals[0].destination;
  }

  /** An empty source: the producer emits only the sentinel and the consumer
      returns with an empty destination. */
  method EmptySourceRun() returns (emitted: seq<Msg<int>>, destination: seq<int>)
    ensures emitted == [Stop] && destination == []
  {
    var sent, finals, left;
    sent, emitted, finals, left := Run([], 5, 1, false);
    destination := finals[0].destination;
  }

  /** One producer, two consumers, capacity 5, source 1..40: both consumers
      return, and together they received every item exactly once. */
  method TwoConsumersRun() returns (first: seq<int>, second: seq<int>)
    ensures multiset(first) + multiset(second) == multiset(Range(1, 41))
  {
    var source := Range(1, 41);
    var sent, emitted, finals, left := Run(source, 5, 2, false);
    assert source[..sent] == source;
    first, second := finals[0].destination, finals[1].destination;
  }
}
