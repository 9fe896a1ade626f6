/** The producer and consumer threads, each reduced to its state and one step
    over the shared buffer. A step may fire only in the state in which the
    corresponding `put` or `get` does not wait. */
module Workers {
  import opened Buffer

  /** What travels through the buffer: a work item or the end-of-stream
      sentinel. The tag, not the value, tells the two apart, so no work item
      can be mistaken for the sentinel. */
  datatype Msg<T> = Item(value: T) | Stop

  /** The stream of messages that carries the items `xs`, in order. */
  function Wrap<T>(xs: seq<T>): (ms: seq<Msg<T>>)
    ensures |ms| == |xs|
    ensures forall i :: 0 <= i < |xs| ==> ms[i] == Item(xs[i])
  {
    if xs == [] then [] else [Item(xs[0])] + Wrap(xs[1..])
  }

  /** The work items of a message stream, in order, sentinels dropped. */
  function Items<T>(ms: seq<Msg<T>>): (xs: seq<T>)
    ensures |xs| <= |ms|
    ensures Stop !in ms ==> |xs| == |ms|
  {
    if ms == [] then []
    else (if ms[0].Item? then [ms[0].value] else []) + Items(ms[1..])
  }

  lemma {:induction false} ItemsAppend<T>(a: seq<Msg<T>>, b: seq<Msg<T>>)
    ensures Items(a + b) == Items(a) + Items(b)
  {
    if a == [] {
      assert a + b == b;
    } else {
      var head := if a[0].Item? then [a[0].value] else [];
      assert (a + b)[0] == a[0];
      assert (a + b)[1..] == a[1..] + b;
      assert Items(a + b) == head + Items(a[1..] + b);
      ItemsAppend(a[1..], b);
      assert Items(a) == head + Items(a[1..]);
    }
  }

  /** Dropping the sentinels from a wrapped stream gives back the items. */
  lemma {:induction false} ItemsOfWrap<T>(xs: seq<T>)
    ensures Items(Wrap(xs)) == xs
    ensures Stop !in Wrap(xs)
  {
    if xs != [] {
      ItemsOfWrap(xs[1..]);
      assert Wrap(xs)[1..] == Wrap(xs[1..]);
    }
  }

  // ---------------------------------------------------------------- producer

  /** Where the producer's `run` is: inside its `for` loop, in its `finally`
      clause after an exception, or returned (normally, or by re-raising). */
  datatype Phase = Emitting | Raising | Completed | Failed

  /** A producer that has put `source[..next]` so far. */
  datatype Producer<T> = Producer(source: seq<T>, next: nat, phase: Phase)
  {
    ghost predicate Valid() {
      next <= |source|
    }

    /** The thread has returned and puts nothing more. */
    predicate Returned() {
      phase == Completed || phase == Failed
    }
  }

  /** A producer before its thread starts. */
  function NewProducer<T>(source: seq<T>): (p: Producer<T>)
    ensures p.Valid() && p.source == source && !p.Returned()
    ensures p.phase == Emitting && p.next == 0
    ensures Emitted(p) == []
  {
    Producer(source, 0, Emitting)
  }

  /** Everything the producer has put into the buffer so far: the items it
      has reached, and the sentinel once it has left its `finally` clause. */
  function Emitted<T>(p: Producer<T>): seq<Msg<T>>
    requires p.Valid()
  {
    Wrap(p.source[..p.next]) + (if p.Returned() then [Stop] else [])
  }

  /** The producer's next `put` does not wait. */
  predicate ProducerEnabled<T>(p: Producer<T>, q: seq<Msg<T>>, capacity: nat) {
    !p.Returned() && |q| < capacity
  }

  /** An exception may interrupt the `for` loop before an item is put. */
  predicate CanRaise<T>(p: Producer<T>) {
    p.phase == Emitting && p.next < |p.source|
  }

  /** The exception leaves the loop for the `finally` clause; nothing is put. */
  function Raise<T>(p: Producer<T>): (r: Producer<T>)
    requires p.Valid() && CanRaise(p)
    ensures r.Valid() && r.source == p.source && r.next == p.next
    ensures !r.Returned() && !CanRaise(r)
    ensures Emitted(r) == Emitted(p)
  {
    p.(phase := Raising)
  }

  /** One `put` of the producer: the next source item while the loop runs,
      otherwise the sentinel of the `finally` clause, after which it returns. */
  method ProducerStep<T>(p: Producer<T>, buf: CustomBoundedBuffer<Msg<T>>)
    returns (r: Producer<T>, m: Msg<T>)
    requires buf.Valid() && p.Valid()
    requires ProducerEnabled(p, buf.buffer, buf.capacity)
    modifies buf
    ensures buf.Valid() && buf.buffer == old(buf.buffer) + [m]
    ensures r.Valid() && r.source == p.source
    ensures Emitted(r) == Emitted(p) + [m]
    ensures p.phase == Emitting && p.next < |p.source| ==>
              m == Item(p.source[p.next]) && r == p.(next := p.next + 1)
    ensures p.phase == Emitting && p.next == |p.source| ==>
              m == Stop && r == p.(phase := Completed)
    ensures p.phase == Raising ==> m == Stop && r == p.(phase := Failed)
  {
    if p.phase == Emitting && p.next < |p.source| {
      m := Item(p.source[p.next]);
      buf.Put(m);
      r := p.(next := p.next + 1);
      assert r.source[..r.next] == p.source[..p.next] + [p.source[p.next]];
      assert Wrap(r.source[..r.next]) == Wrap(p.source[..p.next]) + [m];
    } else {
      m := Stop;
      buf.Put(m);
      r := p.(phase := if p.phase == Emitting then Completed else Failed);
    }
  }

  // ---------------------------------------------------------------- consumer

  /** A consumer runs its loop, holds the sentinel it is about to put back,
      or has returned. */
  datatype Status = Running | Propagating | Stopped

  /** A consumer and the items it has appended to its destination list. */
  datatype Consumer<T> = Consumer(destination: seq<T>, status: Status)

  /** A consumer before its thread starts. */
  function NewConsumer<T>(): (c: Consumer<T>)
    ensures c.destination == [] && c.status == Running
  {
    Consumer([], Running)
  }

  /** The consumer's next `get` (or its re-`put` of the sentinel) does not wait. */
  predicate ConsumerEnabled<T>(c: Consumer<T>, q: seq<Msg<T>>, capacity: nat) {
    match c.status
    case Running => q != []
    case Propagating => |q| < capacity
    case Stopped => false
  }

  /** One step of the consumer's loop: a `get` that appends a work item to the
      destination, or that takes the sentinel; then the `put` that hands the
      sentinel on to any sibling consumer, after which it returns. */
  method ConsumerStep<T>(c: Consumer<T>, buf: CustomBoundedBuffer<Msg<T>>)
    returns (r: Consumer<T>)
    requires buf.Valid() && ConsumerEnabled(c, buf.buffer, buf.capacity)
    modifies buf
    ensures buf.Valid()
    ensures c.status == Running ==> buf.buffer == old(buf.buffer)[1..]
    ensures c.status == Running && old(buf.buffer)[0].Item? ==>
              r == c.(destination := c.destination + [old(buf.buffer)[0].value])
    ensures c.status == Running && old(buf.buffer)[0] == Stop ==>
              r == c.(status := Propagating)
    ensures c.status == Propagating ==>
              buf.buffer == old(buf.buffer) + [Stop] &&
              r == c.(status := Stopped)
  {
    if c.status == Running {
      var m := buf.Get();
      if m == Stop {
        r := c.(status := Propagating);
      } else {
        r := c.(destination := c.destination + [m.value]);
      }
    } else {
      buf.Put(Stop);
      r := c.(status := Stopped);
    }
  }
}
