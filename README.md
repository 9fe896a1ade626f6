# Bounded buffer and producer/consumer protocol

A verified Dafny model of a Python producer/consumer demo. A single
`CustomBoundedBuffer` of fixed capacity is shared by one producer thread and
one or more consumer threads. The producer puts every item of its source list
and then, in a `finally` clause, one sentinel. Each consumer gets items and
appends them to its destination list. When a consumer gets the sentinel, it
puts the sentinel back for its siblings and stops.

The model keeps the shared state and drops the threads:

- `Buffer.CustomBoundedBuffer` is a class with a constant `capacity` and a
  `seq` field `buffer`. `Put` appends at the tail and `Get` removes the head.
  The lock and the two conditions are gone. A call that would wait is a call
  whose precondition fails: `CanPut()` and `CanGet()` are exactly the states
  in which `put` and `get` fall through their `while` loops.
- `Workers` holds the sentinel as a tag (`Msg<T> = Item(value) | Stop`). It
  gives each worker a state value: the producer's position in its source and
  its phase, and the consumer's destination and status. `ProducerStep` and
  `ConsumerStep` take one step of a worker's `run` loop against the shared
  buffer object. A consumer goes Running, then Propagating (it holds the
  sentinel), then Stopped.
- `Scheduler.Run` creates the buffer, one producer and `consumers` consumers.
  It then loops, each time firing an arbitrary enabled step chosen with `:|`.
  One verified run of `Run` therefore covers every interleaving of the
  threads. When `interrupts` holds, the producer's loop may also be cut short
  by an exception, after which its `finally` clause still puts the sentinel.
- `Scenarios` restates the runs the repository's tests set up, as clients of
  the model.
- `Findings` records one discrepancy: the source uses the value `None` as its
  sentinel.

What is proved:

- The buffer never holds more than `capacity` items.
- `Put` and `Get` behave as a FIFO queue.
- Under any schedule the run ends, and no step ever deadlocks.
- The producer emits a prefix of its source followed by exactly one
  sentinel. The prefix is the whole source unless an exception occurred.
- Every emitted item reaches exactly one consumer: the multiset union of the
  destinations equals it. A single consumer receives it in order.
- Every consumer stops, and the buffer ends holding just the sentinel.

## Model

| member | source | states |
|---|---|---|
| `Buffer.CustomBoundedBuffer.constructor` | src/buffer.py:8-10 | a new buffer is empty and stores the given capacity; `put` is enabled and `get` is not |
| `Buffer.CustomBoundedBuffer.Put` | src/buffer.py:19-26 | fires only when the size is below capacity; the new contents are the old ones with the item at the tail; the size stays within capacity; afterwards `get` is enabled |
| `Buffer.CustomBoundedBuffer.Get` | src/buffer.py:28-36 | fires only on a non-empty buffer; returns the old head and leaves the old tail; afterwards `put` is enabled |
| `Workers.ItemsOfWrap` | src/workers.py:7 | the tagged stream of a source holds no sentinel, and dropping sentinels from it gives back the source |
| `Workers.NewProducer` | src/workers.py:10-13 | a producer starts in phase `Emitting` (inside its `for` loop, not in its `finally` clause) at position 0 of its source, not returned, having emitted nothing |
| `Workers.Raise` | src/workers.py:17-23 | an exception in the loop moves the producer to its `finally` clause without putting anything |
| `Workers.ProducerStep` | src/workers.py:17-25 | inside the loop it puts the next source item; at the loop's end, or after an exception, it puts the sentinel and returns; what it has emitted grows by exactly the message put |
| `Workers.NewConsumer` | src/workers.py:29-32 | a consumer starts running with an empty destination |
| `Workers.ConsumerStep` | src/workers.py:36-44 | a `get` of an item appends it to the destination; a `get` of the sentinel appends nothing and moves to holding it; holding it, the consumer puts it back and stops; a stopped consumer has no enabled step |
| `Scheduler.Progress` | src/workers.py:17-44 | no deadlock: until all threads have returned, some producer `put` or consumer `get`/re-`put` does not wait, without counting an exception as a step (a blocked producer implies a consumer can get; the sentinel's re-put never waits) |
| `Scheduler.InitialInv` | src/workers.py:10-32 | the run invariant holds before any thread runs |
| `Scheduler.TakeItemPreserves` | src/workers.py:37-44 | a consumer's `get` of an item keeps the run invariant: nothing lost or duplicated, a single consumer in order, sentinel placement |
| `Scheduler.TakeStopPreserves` | src/workers.py:37-40 | a consumer's `get` of the sentinel keeps the run invariant; the sentinel was the buffer's only element |
| `Scheduler.PutBackPreserves` | src/workers.py:38-41 | the re-put of the sentinel keeps the run invariant; the sentinel is again the buffer's only element |
| `Scheduler.PutItemPreserves` | src/workers.py:18-21 | the producer's `put` of its next item keeps the run invariant |
| `Scheduler.PutStopPreserves` | src/workers.py:23-25 | the producer's `put` of the sentinel keeps the run invariant |
| `Scheduler.Quiescent` | src/workers.py:38-41 | once every thread has returned, the buffer holds exactly the sentinel and all emitted items have been delivered |
| `Scheduler.Step` | src/workers.py:17-44 | one arbitrary enabled step keeps the invariant and brings the run closer to its end |
| `Scheduler.Run` | src/workers.py:15-46 | under any schedule the run ends. The producer emitted `source[..sent]` and then one sentinel, and `sent` is the whole source length when no exception occurs. Every consumer has stopped. The destinations' multiset union equals `source[..sent]`: for two consumers, the two destinations together. A single consumer's destination equals `source[..sent]`. An empty source leaves every destination empty. The buffer ends as the single sentinel |
| `Scenarios.PutThenGet` | test/test_concurrency.py:40-62 | a `get` on an empty buffer waits; after `put(x)` it returns `x` and the buffer is empty |
| `Scenarios.CapacityOneHandOff` | test/test_concurrency.py:65-88 | with capacity 1 a second `put` waits until a `get` returns the first item, then goes through |
| `Scenarios.FillThenDrain` | src/buffer.py:19-36 | putting up to `capacity` items into an empty buffer and getting as many returns them unchanged and in order |
| `Scenarios.IntegrityRun` | test/test_concurrency.py:14-37 | capacity 3, source 1..199, one consumer: destination equals source |
| `Scenarios.EmptySourceRun` | test/test_concurrency.py:91-108 | empty source: the producer emits only the sentinel, and the consumer returns with an empty destination |
| `Scenarios.TwoConsumersRun` | test/test_concurrency.py:111-139 | capacity 5, source 1..40, two consumers: both return, and together they hold each item exactly once |
| `Findings.DrainAsWritten` | src/workers.py:36-44 | the consumer loop as written, over untagged values: its destination is a prefix of the stream without `None` that ends at the stream's end or right before a `None`, so it is exactly the prefix before the first `None` |
| `Findings.NoneItemEndsTransfer` | src/workers.py:37-41 | as written, a source item `None` ends the consumer: `[1, None, 2]` delivers only `[1]` |
| `Findings.TaggedNoneItemSurvives` | src/workers.py:36-44 | with the tagged sentinel, the same source `[1, None, 2]` is delivered whole |

## Left out

- The `threading.RLock`, both `threading.Condition` objects and the wake-up
  behaviour of `wait`/`notify` are not modelled. Waiting is modelled only as
  a step precondition.
- Thread objects, `start`, `join(timeout=...)` and `is_alive()` are not
  modelled. Termination is shown as the end of the scheduler loop.
- `time.sleep`, all timing claims and the timeouts in the tests are left
  out, because they depend on the real scheduler.
- The "both consumers got at least one item" check at
  test/test_concurrency.py:142 is left out, because it holds only for
  favourable schedules.
- All `print` calls and main.py are left out. main.py is a driver that the
  scenarios and `Run` stand in for.
- Worker state is a value threaded through the scheduler, not a `Thread`
  object with fields. Each consumer's destination is returned by `Run`
  rather than being a list shared in place with the caller, so that aliasing
  is not modelled.
- Only one producer is modelled. With several producers there are several
  sentinels, and the protocol's guarantees differ.
- Exceptions are modelled only in the producer's loop, before an item is
  put. Exceptions inside a consumer are not modelled.
- src/buffer.py:8-10 does not check `capacity > 0`. The model makes
  `0 < capacity` a precondition of the constructor and of `Run`.
- Scheduler.Run: with two or more consumers, it does not state that each
  destination keeps source order. Only the multiset union is stated.
- Scenarios.IntegrityRun and the other scenarios do not state the tests'
  timing limits, as said above.

## Findings

| source | as written | input that shows it | evidently intended | confidence | as-written member | corrected member |
|---|---|---|---|---|---|---|
| src/workers.py:7-40 | the consumer detects the end of stream with `item is SENTINEL`, where `SENTINEL = None`, so a work item that is `None` is taken for the sentinel | source `[1, None, 2]`: the consumer stops after `[1]` and re-puts the `None`; the destination differs from the source | the sentinel is distinct from every work item, so any source, including one holding `None`, is delivered whole | medium, not executed | `Findings.NoneItemEndsTransfer` | `Findings.TaggedNoneItemSurvives` |
