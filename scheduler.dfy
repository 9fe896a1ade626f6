/** One producer and one or more consumers sharing one buffer, run by a
    sequential scheduler that fires any enabled step: every interleaving the
    threads can produce is one run of `Run`. */
module Scheduler {
  import opened Buffer
  import opened Workers

  /** All consumers' destinations, concatenated. */
  function Delivered<T>(cs: seq<Consumer<T>>): seq<T> {
    if cs == [] then [] else cs[0].destination + Delivered(cs[1..])
  }

  function StatusWeight(s: Status): nat {
    match s
    case Running => 2
    case Propagating => 1
    case Stopped => 0
  }

  /** How many consumer steps at most remain that do not take a work item. */
  function Pending<T>(cs: seq<Consumer<T>>): nat {
    if cs == [] then 0 else StatusWeight(cs[0].status) + Pending(cs[1..])
  }

  function PhaseWeight(ph: Phase): nat {
    match ph
    case Emitting => 2
    case Raising => 1
    case Completed => 0
    case Failed => 0
  }

  /** Producer steps still to come, weighted, plus the work items queued:
      every step but a consumer's handling of the sentinel lowers it. */
  function Work<T>(p: Producer<T>, q: seq<Msg<T>>): nat
    requires p.Valid()
  {
    3 * (|p.source| - p.next) + PhaseWeight(p.phase) + |Items(q)|
  }

  predicate AllStopped<T>(cs: seq<Consumer<T>>) {
    forall i :: 0 <= i < |cs| ==> cs[i].status == Stopped
  }

  /** Actor `k` may take a step: consumer `k` when `k < |cs|`, the producer's
      next `put` when `k == |cs|`, the producer's exception when
      `k == |cs| + 1` (only in runs where exceptions may occur). */
  predicate ActorEnabled<T>(k: nat, p: Producer<T>, cs: seq<Consumer<T>>,
                            q: seq<Msg<T>>, capacity: nat, interrupts: bool)
  {
    if k < |cs| then ConsumerEnabled(cs[k], q, capacity)
    else if k == |cs| then ProducerEnabled(p, q, capacity)
    else k == |cs| + 1 && interrupts && CanRaise(p)
  }

  /** No work item is lost or duplicated: what the consumers hold and what is
      still queued is what the producer has put; a single consumer also keeps
      the order. */
  ghost predicate Conserved<T>(put: seq<T>, cs: seq<Consumer<T>>, q: seq<Msg<T>>) {
    && multiset(Delivered(cs)) + multiset(Items(q)) == multiset(put)
    && (|cs| == 1 ==> cs[0].destination + Items(q) == put)
  }

  /** Where the single sentinel is. Before the producer returns it exists
      nowhere and every consumer runs; afterwards it is either at the tail of
      the buffer or held by consumer `holder`, which has taken it and not yet
      put it back (`holder == -1` when nobody holds it). Once any consumer has
      taken it, no work item is left. */
  ghost predicate SentinelPlaced<T>(p: Producer<T>, cs: seq<Consumer<T>>, q: seq<Msg<T>>, holder: int) {
    && -1 <= holder < |cs|
    && (forall i :: 0 <= i < |cs| ==> (cs[i].status == Propagating <==> i == holder))
    && (!p.Returned() ==> Stop !in q && holder == -1 && forall i :: 0 <= i < |cs| ==> cs[i].status == Running)
    && (p.Returned() && holder >= 0 ==> q == [])
    && (p.Returned() && holder < 0 ==> q != [] && q[|q| - 1] == Stop && Stop !in q[..|q| - 1])
    && (forall i :: 0 <= i < |cs| && cs[i].status != Running ==> q == [] || q == [Stop])
  }

  /** What holds between any two steps of a run. */
  ghost predicate Inv<T>(source: seq<T>, interrupts: bool, capacity: nat,
                         p: Producer<T>, cs: seq<Consumer<T>>, q: seq<Msg<T>>,
                         emitted: seq<Msg<T>>, holder: int)
  {
    && p.Valid() && p.source == source
    && 0 < capacity && |q| <= capacity
    && emitted == Emitted(p)
    && (!interrupts ==> p.phase != Raising && p.phase != Failed)
    && (p.phase == Completed ==> p.next == |source|)
    && Conserved(source[..p.next], cs, q)
    && SentinelPlaced(p, cs, q, holder)
  }

  /** A consumer appending `x` adds exactly `x` to what has been delivered. */
  lemma {:induction false} DeliveredAppend<T>(cs: seq<Consumer<T>>, k: nat, x: T)
    requires k < |cs|
    ensures multiset(Delivered(cs[k := cs[k].(destination := cs[k].destination + [x])]))
         == multiset(Delivered(cs)) + multiset{x}
  {
    var c := cs[k].(destination := cs[k].destination + [x]);
    var cs' := cs[k := c];
    if k == 0 {
      assert cs'[1..] == cs[1..];
      calc {
        multiset(Delivered(cs'));
        multiset(c.destination + Delivered(cs[1..]));
        multiset(cs[0].destination) + multiset{x} + multiset(Delivered(cs[1..]));
        multiset(Delivered(cs)) + multiset{x};
      }
    } else {
      var rest := cs[1..][k - 1 := cs[1..][k - 1].(destination := cs[1..][k - 1].destination + [x])];
      assert cs'[1..] == rest;
      DeliveredAppend(cs[1..], k - 1, x);
      calc {
        multiset(Delivered(cs'));
        multiset(cs[0].destination + Delivered(rest));
        multiset(cs[0].destination) + multiset(Delivered(rest));
        multiset(cs[0].destination) + (multiset(Delivered(cs[1..])) + multiset{x});
        multiset(Delivered(cs)) + multiset{x};
      }
    }
  }

  /** A consumer changing state delivers nothing. */
  lemma {:induction false} DeliveredRestatus<T>(cs: seq<Consumer<T>>, k: nat, st: Status)
    requires k < |cs|
    ensures Delivered(cs[k := cs[k].(status := st)]) == Delivered(cs)
  {
    var cs' := cs[k := cs[k].(status := st)];
    if k == 0 {
      assert cs'[1..] == cs[1..];
    } else {
      assert cs'[1..] == cs[1..][k - 1 := cs[1..][k - 1].(status := st)];
      DeliveredRestatus(cs[1..], k - 1, st);
    }
  }

  lemma {:induction false} PendingUpdate<T>(cs: seq<Consumer<T>>, k: nat, c: Consumer<T>)
    requires k < |cs|
    ensures Pending(cs[k := c]) + StatusWeight(cs[k].status) == Pending(cs) + StatusWeight(c.status)
  {
    if k == 0 {
      assert cs[k := c][1..] == cs[1..];
    } else {
      assert cs[k := c][1..] == cs[1..][k - 1 := c];
      PendingUpdate(cs[1..], k - 1, c);
    }
  }

  lemma {:induction false} DeliveredAllEmpty<T>(cs: seq<Consumer<T>>)
    requires Delivered(cs) == []
    ensures forall i :: 0 <= i < |cs| ==> cs[i].destination == []
  {
    if cs != [] {
      DeliveredAllEmpty(cs[1..]);
      forall i | 0 < i < |cs| ensures cs[i].destination == [] {
        assert cs[i] == cs[1..][i - 1];
      }
    }
  }

  /** The run never deadlocks: until the producer has returned and every
      consumer has stopped, some thread has a `put` or `get` that does not
      wait. An exception is never needed to make progress. */
  lemma Progress<T>(source: seq<T>, interrupts: bool, capacity: nat,
                    p: Producer<T>, cs: seq<Consumer<T>>, q: seq<Msg<T>>,
                    emitted: seq<Msg<T>>, holder: int)
    requires Inv(source, interrupts, capacity, p, cs, q, emitted, holder)
    requires |cs| > 0 && !(p.Returned() && AllStopped(cs))
    ensures exists k: nat :: k <= |cs| && ActorEnabled(k, p, cs, q, capacity, interrupts)
  {
    if !p.Returned() {
      if |q| < capacity {
        assert ActorEnabled(|cs|, p, cs, q, capacity, interrupts);
      } else {
        assert ActorEnabled(0, p, cs, q, capacity, interrupts);
      }
    } else if holder >= 0 {
      assert ActorEnabled(holder, p, cs, q, capacity, interrupts);
    } else {
      var i :| 0 <= i < |cs| && cs[i].status != Stopped;
      assert ActorEnabled(i, p, cs, q, capacity, interrupts);
    }
  }

  /** Runs one producer over `source` and `consumers` consumers on a fresh
      buffer of the given capacity, under an arbitrary schedule of enabled
      steps, until every thread has returned. When `interrupts` holds, the
      producer's loop may also be cut short by an exception. */
  method Run<T>(source: seq<T>, capacity: nat, consumers: nat, interrupts: bool)
    returns (sent: nat, emitted: seq<Msg<T>>, finals: seq<Consumer<T>>, left: seq<Msg<T>>)
    requires 0 < capacity && 0 < consumers
    ensures sent <= |source| && (!interrupts ==> sent == |source|)
    ensures emitted == Wrap(source[..sent]) + [Stop]
    ensures |finals| == consumers && AllStopped(finals)
    ensures multiset(Delivered(finals)) == multiset(source[..sent])
    ensures consumers == 1 ==> finals[0].destination == source[..sent]
    ensures consumers == 2 ==>
              multiset(finals[0].destination) + multiset(finals[1].destination) == multiset(source[..sent])
    ensures source == [] ==> forall i :: 0 <= i < |finals| ==> finals[i].destination == []
    ensures left == [Stop]
  {
    var buf := new CustomBoundedBuffer<Msg<T>>(capacity);
    var p := NewProducer(source);
    var cs: seq<Consumer<T>> := [];
    while |cs| < consumers
      invariant |cs| <= consumers
      invariant forall i :: 0 <= i < |cs| ==> cs[i] == NewConsumer()
    {
      cs := cs + [NewConsumer()];
    }
    emitted := [];
    ghost var holder := -1;
    InitialInv(source, interrupts, capacity, cs);
    while !(p.Returned() && AllStopped(cs))
      invariant buf.Valid() && buf.capacity == capacity && |cs| == consumers
      invariant Inv(source, interrupts, capacity, p, cs, buf.buffer, emitted, holder)
      decreases Work(p, buf.buffer), Pending(cs)
    {
      p, cs, emitted, holder := Step(source, interrupts, capacity, p, cs, buf, emitted, holder);
    }
    Quiescent(source, interrupts, capacity, p, cs, buf.buffer, emitted, holder);
    sent := p.next;
    finals := cs;
    left := buf.buffer;
    assert Items(left) == [];
    if consumers == 2 {
      assert Delivered(finals) == finals[0].destination + finals[1].destination by {
        DeliveredSingle(finals[1..]);
      }
    }
    if source == [] {
      assert Delivered(finals) == [];
      DeliveredAllEmpty(finals);
    }
  }

  /** When every thread has returned, the buffer holds exactly the sentinel
      and nothing else: every item has been taken by some consumer. */
  lemma Quiescent<T>(source: seq<T>, interrupts: bool, capacity: nat,
                     p: Producer<T>, cs: seq<Consumer<T>>, q: seq<Msg<T>>,
                     emitted: seq<Msg<T>>, holder: int)
    requires Inv(source, interrupts, capacity, p, cs, q, emitted, holder)
    requires |cs| > 0 && p.Returned() && AllStopped(cs)
    ensures q == [Stop] && Items(q) == []
    ensures multiset(Delivered(cs)) == multiset(source[..p.next])
  {
    assert holder < 0 by {
      if holder >= 0 {
        assert false;
      }
    }
    assert cs[0].status != Running;
    assert Items(q) == [];
  }

  /** One scheduling decision: any enabled actor takes one step. The new
      state keeps the invariant, and the run comes closer to its end. */
  method Step<T>(source: seq<T>, interrupts: bool, capacity: nat,
                 p: Producer<T>, cs: seq<Consumer<T>>, buf: CustomBoundedBuffer<Msg<T>>,
                 emitted: seq<Msg<T>>, ghost holder: int)
    returns (p': Producer<T>, cs': seq<Consumer<T>>, emitted': seq<Msg<T>>, ghost holder': int)
    requires buf.Valid() && buf.capacity == capacity
    requires Inv(source, interrupts, capacity, p, cs, buf.buffer, emitted, holder)
    requires |cs| > 0 && !(p.Returned() && AllStopped(cs))
    modifies buf
    ensures buf.Valid() && |cs'| == |cs|
    ensures Inv(source, interrupts, capacity, p', cs', buf.buffer, emitted', holder')
    ensures Work(p', buf.buffer) < Work(p, old(buf.buffer))
         || (Work(p', buf.buffer) == Work(p, old(buf.buffer)) && Pending(cs') < Pending(cs))
  {
    Progress(source, interrupts, capacity, p, cs, buf.buffer, emitted, holder);
    var k: nat :| k <= |cs| + 1 && ActorEnabled(k, p, cs, buf.buffer, capacity, interrupts);
    p', cs', emitted', holder' := p, cs, emitted, holder;
    if k < |cs| {
      cs', holder' := FireConsumer(source, interrupts, capacity, p, cs, buf, emitted, holder, k);
    } else if k == |cs| {
      p', emitted' := FireProducer(source, interrupts, capacity, p, cs, buf, emitted, holder);
    } else {
      assert ActorEnabled(k, p, cs, buf.buffer, capacity, interrupts);
      p' := Raise(p);
    }
  }

  /** Consumer `k` takes one step. */
  method FireConsumer<T>(source: seq<T>, interrupts: bool, capacity: nat,
                         p: Producer<T>, cs: seq<Consumer<T>>, buf: CustomBoundedBuffer<Msg<T>>,
                         emitted: seq<Msg<T>>, ghost holder: int, k: nat)
    returns (cs': seq<Consumer<T>>, ghost holder': int)
    requires buf.Valid() && buf.capacity == capacity
    requires Inv(source, interrupts, capacity, p, cs, buf.buffer, emitted, holder)
    requires k < |cs| && ConsumerEnabled(cs[k], buf.buffer, capacity)
    modifies buf
    ensures buf.Valid() && |cs'| == |cs|
    ensures Inv(source, interrupts, capacity, p, cs', buf.buffer, emitted, holder')
    ensures Work(p, buf.buffer) < Work(p, old(buf.buffer))
         || (Work(p, buf.buffer) == Work(p, old(buf.buffer)) && Pending(cs') < Pending(cs))
  {
    ghost var q := buf.buffer;
    var c := ConsumerStep(cs[k], buf);
    holder' := holder;
    if cs[k].status == Propagating {
      PutBackPreserves(source, interrupts, capacity, p, cs, q, emitted, holder, k);
      holder' := -1;
    } else if q[0] == Stop {
      TakeStopPreserves(source, interrupts, capacity, p, cs, q, emitted, holder, k);
      holder' := k;
    } else {
      TakeItemPreserves(source, interrupts, capacity, p, cs, q, emitted, holder, k);
    }
    PendingUpdate(cs, k, c);
    cs' := cs[k := c];
  }

  /** The producer puts one message. */
  method FireProducer<T>(source: seq<T>, interrupts: bool, capacity: nat,
                         p: Producer<T>, cs: seq<Consumer<T>>, buf: CustomBoundedBuffer<Msg<T>>,
                         emitted: seq<Msg<T>>, ghost holder: int)
    returns (p': Producer<T>, emitted': seq<Msg<T>>)
    requires buf.Valid() && buf.capacity == capacity
    requires Inv(source, interrupts, capacity, p, cs, buf.buffer, emitted, holder)
    requires ProducerEnabled(p, buf.buffer, capacity)
    modifies buf
    ensures buf.Valid()
    ensures Inv(source, interrupts, capacity, p', cs, buf.buffer, emitted', holder)
    ensures Work(p', buf.buffer) < Work(p, old(buf.buffer))
  {
    ghost var q := buf.buffer;
    var m;
    p', m := ProducerStep(p, buf);
    if p.phase == Emitting && p.next < |source| {
      PutItemPreserves(source, interrupts, capacity, p, cs, q, emitted, holder);
    } else {
      PutStopPreserves(source, interrupts, capacity, p, cs, q, emitted, holder);
    }
    emitted' := emitted + [m];
  }

  /** The invariant holds before any thread has taken a step. */
  lemma InitialInv<T>(source: seq<T>, interrupts: bool, capacity: nat, cs: seq<Consumer<T>>)
    requires 0 < capacity
    requires forall i :: 0 <= i < |cs| ==> cs[i] == NewConsumer()
    ensures Inv(source, interrupts, capacity, NewProducer(source), cs, [], [], -1)
  {
    DeliveredAllNew(cs);
    assert source[..0] == [];
  }

  lemma {:induction false} DeliveredAllNew<T>(cs: seq<Consumer<T>>)
    requires forall i :: 0 <= i < |cs| ==> cs[i] == NewConsumer()
    ensures Delivered(cs) == [] && Pending(cs) == 2 * |cs|
  {
    if cs != [] {
      DeliveredAllNew(cs[1..]);
    }
  }

  lemma DeliveredSingle<T>(cs: seq<Consumer<T>>)
    requires |cs| == 1
    ensures Delivered(cs) == cs[0].destination
  {
    assert cs[1..] == [];
  }

  /** A consumer's `get` of a work item keeps the invariant. */
  lemma TakeItemPreserves<T>(source: seq<T>, interrupts: bool, capacity: nat,
                             p: Producer<T>, cs: seq<Consumer<T>>, q: seq<Msg<T>>,
                             emitted: seq<Msg<T>>, holder: int, k: nat)
    requires Inv(source, interrupts, capacity, p, cs, q, emitted, holder)
    requires k < |cs| && cs[k].status == Running && q != [] && q[0].Item?
    ensures Inv(source, interrupts, capacity, p,
                cs[k := cs[k].(destination := cs[k].destination + [q[0].value])], q[1..],
                emitted, holder)
    ensures Work(p, q[1..]) < Work(p, q)
  {
    var x := q[0].value;
    var cs' := cs[k := cs[k].(destination := cs[k].destination + [x])];
    TakeItemConserves(source[..p.next], cs, q, k);
    TakeItemKeepsSentinel(p, cs, q, holder, k);
  }

  lemma TakeItemConserves<T>(put: seq<T>, cs: seq<Consumer<T>>, q: seq<Msg<T>>, k: nat)
    requires Conserved(put, cs, q)
    requires k < |cs| && q != [] && q[0].Item?
    ensures Conserved(put, cs[k := cs[k].(destination := cs[k].destination + [q[0].value])], q[1..])
  {
    var x := q[0].value;
    var cs' := cs[k := cs[k].(destination := cs[k].destination + [x])];
    var rest := Items(q[1..]);
    assert Items(q) == [x] + rest;
    TakeItemNoneLost(put, cs, q, k);
    if |cs| == 1 {
      TakeItemInOrder(put, cs, q);
    }
  }

  lemma TakeItemNoneLost<T>(put: seq<T>, cs: seq<Consumer<T>>, q: seq<Msg<T>>, k: nat)
    requires multiset(Delivered(cs)) + multiset(Items(q)) == multiset(put)
    requires k < |cs| && q != [] && q[0].Item?
    ensures multiset(Delivered(cs[k := cs[k].(destination := cs[k].destination + [q[0].value])]))
          + multiset(Items(q[1..])) == multiset(put)
  {
    var x := q[0].value;
    var rest := Items(q[1..]);
    assert Items(q) == [x] + rest;
    DeliveredAppend(cs, k, x);
    assert multiset(Items(q)) == multiset{x} + multiset(rest);
  }

  lemma TakeItemInOrder<T>(put: seq<T>, cs: seq<Consumer<T>>, q: seq<Msg<T>>)
    requires |cs| == 1 && cs[0].destination + Items(q) == put
    requires q != [] && q[0].Item?
    ensures cs[0 := cs[0].(destination := cs[0].destination + [q[0].value])][0].destination
          + Items(q[1..]) == put
  {
    var x := q[0].value;
    assert Items(q) == [x] + Items(q[1..]);
    assert cs[0].destination + [x] + Items(q[1..]) == cs[0].destination + ([x] + Items(q[1..]));
  }

  lemma TakeItemKeepsSentinel<T>(p: Producer<T>, cs: seq<Consumer<T>>, q: seq<Msg<T>>, holder: int, k: nat)
    requires SentinelPlaced(p, cs, q, holder)
    requires k < |cs| && cs[k].status == Running && q != [] && q[0].Item?
    ensures SentinelPlaced(p, cs[k := cs[k].(destination := cs[k].destination + [q[0].value])], q[1..], holder)
  {
    var cs' := cs[k := cs[k].(destination := cs[k].destination + [q[0].value])];
    assert forall i :: 0 <= i < |cs| ==> cs'[i].status == cs[i].status;
    if p.Returned() && holder < 0 {
      assert |q| >= 2;
      assert q[1..][..|q| - 2] == q[..|q| - 1][1..];
    }
    if !p.Returned() {
      assert Stop !in q[1..];
    }
  }

  /** A consumer's `get` of the sentinel keeps the invariant; it now holds it. */
  lemma TakeStopPreserves<T>(source: seq<T>, interrupts: bool, capacity: nat,
                             p: Producer<T>, cs: seq<Consumer<T>>, q: seq<Msg<T>>,
                             emitted: seq<Msg<T>>, holder: int, k: nat)
    requires Inv(source, interrupts, capacity, p, cs, q, emitted, holder)
    requires k < |cs| && cs[k].status == Running && q != [] && q[0] == Stop
    ensures Inv(source, interrupts, capacity, p, cs[k := cs[k].(status := Propagating)], q[1..],
                emitted, k)
    ensures Work(p, q[1..]) == Work(p, q)
  {
    assert Stop in q;
    assert p.Returned() && holder < 0;
    assert q == [Stop] && q[1..] == [];
    RestatusConserves(source[..p.next], cs, q, q[1..], k, Propagating);
    TakeStopKeepsSentinel(p, cs, k);
  }

  /** Changing one consumer's status, while the buffer changes only in
      sentinels, loses and duplicates no work item. */
  lemma RestatusConserves<T>(put: seq<T>, cs: seq<Consumer<T>>, q: seq<Msg<T>>, q': seq<Msg<T>>,
                             k: nat, st: Status)
    requires Conserved(put, cs, q) && Items(q) == Items(q')
    requires k < |cs|
    ensures Conserved(put, cs[k := cs[k].(status := st)], q')
  {
    var cs' := cs[k := cs[k].(status := st)];
    DeliveredRestatus(cs, k, st);
    if |cs| == 1 {
      DeliveredSingle(cs);
      DeliveredSingle(cs');
    }
  }

  /** The consumer that took the sentinel from the buffer, which then is
      empty, is its only holder. */
  lemma TakeStopKeepsSentinel<T>(p: Producer<T>, cs: seq<Consumer<T>>, k: nat)
    requires SentinelPlaced(p, cs, [Stop], -1) && p.Returned()
    requires k < |cs| && cs[k].status == Running
    ensures SentinelPlaced(p, cs[k := cs[k].(status := Propagating)], [], k)
  {
    var cs' := cs[k := cs[k].(status := Propagating)];
    forall i | 0 <= i < |cs'|
      ensures cs'[i].status == Propagating <==> i == k
    {
      if i != k {
        assert cs'[i] == cs[i];
      }
    }
  }

  /** A consumer's re-`put` of the sentinel keeps the invariant. */
  lemma PutBackPreserves<T>(source: seq<T>, interrupts: bool, capacity: nat,
                            p: Producer<T>, cs: seq<Consumer<T>>, q: seq<Msg<T>>,
                            emitted: seq<Msg<T>>, holder: int, k: nat)
    requires Inv(source, interrupts, capacity, p, cs, q, emitted, holder)
    requires k < |cs| && cs[k].status == Propagating && |q| < capacity
    ensures Inv(source, interrupts, capacity, p, cs[k := cs[k].(status := Stopped)], q + [Stop],
                emitted, -1)
    ensures Work(p, q + [Stop]) == Work(p, q)
  {
    assert holder == k && p.Returned();
    assert q == [];
    assert q + [Stop] == [Stop];
    assert Items<T>([Stop]) == [];
    RestatusConserves(source[..p.next], cs, q, q + [Stop], k, Stopped);
    PutBackKeepsSentinel(p, cs, k);
  }

  /** Once the holder has put the sentinel back, it is at the buffer's tail
      and nobody holds it. */
  lemma PutBackKeepsSentinel<T>(p: Producer<T>, cs: seq<Consumer<T>>, k: nat)
    requires SentinelPlaced(p, cs, [], k) && p.Returned()
    requires k < |cs| && cs[k].status == Propagating
    ensures SentinelPlaced(p, cs[k := cs[k].(status := Stopped)], [Stop], -1)
  {
    var cs' := cs[k := cs[k].(status := Stopped)];
    forall i | 0 <= i < |cs'|
      ensures cs'[i].status != Propagating
    {
      if i != k {
        assert cs'[i] == cs[i];
      }
    }
    var tail: seq<Msg<T>> := [Stop];
    assert tail[..0] == [];
  }

  /** The producer's `put` of its next source item keeps the invariant. */
  lemma PutItemPreserves<T>(source: seq<T>, interrupts: bool, capacity: nat,
                            p: Producer<T>, cs: seq<Consumer<T>>, q: seq<Msg<T>>,
                            emitted: seq<Msg<T>>, holder: int)
    requires Inv(source, interrupts, capacity, p, cs, q, emitted, holder)
    requires p.phase == Emitting && p.next < |source| && |q| < capacity
    ensures Inv(source, interrupts, capacity, p.(next := p.next + 1), cs,
                q + [Item(source[p.next])], emitted + [Item(source[p.next])], holder)
    ensures Work(p.(next := p.next + 1), q + [Item(source[p.next])]) < Work(p, q)
  {
    var x := source[p.next];
    var r := p.(next := p.next + 1);
    assert Emitted(r) == Emitted(p) + [Item(x)] by {
      assert source[..r.next] == source[..p.next] + [x];
      assert Wrap(source[..r.next]) == Wrap(source[..p.next]) + [Item(x)];
    }
    assert source[..r.next] == source[..p.next] + [x];
    PutItemConserves(source[..p.next], cs, q, x);
    assert SentinelPlaced(r, cs, q + [Item(x)], holder) by {
      assert Stop !in q + [Item(x)];
    }
  }

  lemma PutItemConserves<T>(put: seq<T>, cs: seq<Consumer<T>>, q: seq<Msg<T>>, x: T)
    requires Conserved(put, cs, q)
    ensures Items(q + [Item(x)]) == Items(q) + [x]
    ensures Conserved(put + [x], cs, q + [Item(x)])
  {
    var held := Items(q);
    ItemsAppend(q, [Item(x)]);
    assert Items([Item(x)]) == [x];
    if |cs| == 1 {
      assert cs[0].destination + (held + [x]) == (cs[0].destination + held) + [x];
    }
  }

  /** The producer's `put` of the sentinel in its `finally` clause keeps the
      invariant. */
  lemma PutStopPreserves<T>(source: seq<T>, interrupts: bool, capacity: nat,
                            p: Producer<T>, cs: seq<Consumer<T>>, q: seq<Msg<T>>,
                            emitted: seq<Msg<T>>, holder: int)
    requires Inv(source, interrupts, capacity, p, cs, q, emitted, holder)
    requires (p.phase == Emitting && p.next == |source|) || p.phase == Raising
    requires |q| < capacity
    ensures Inv(source, interrupts, capacity,
                p.(phase := if p.phase == Emitting then Completed else Failed), cs,
                q + [Stop], emitted + [Stop], holder)
    ensures Work(p.(phase := if p.phase == Emitting then Completed else Failed), q + [Stop]) < Work(p, q)
  {
    var r := p.(phase := if p.phase == Emitting then Completed else Failed);
    ItemsAppend(q, [Stop]);
    assert Items<T>([Stop]) == [];
    assert Items(q + [Stop]) == Items(q);
    assert Emitted(r) == Emitted(p) + [Stop];
    assert Conserved(source[..r.next], cs, q + [Stop]);
    PutStopKeepsSentinel(p, r, cs, q, holder);
  }

  /** The producer's sentinel lands at the buffer's tail, and it is the only
      one there. */
  lemma PutStopKeepsSentinel<T>(p: Producer<T>, r: Producer<T>, cs: seq<Consumer<T>>,
                                q: seq<Msg<T>>, holder: int)
    requires SentinelPlaced(p, cs, q, holder) && !p.Returned() && r.Returned()
    ensures SentinelPlaced(r, cs, q + [Stop], holder)
  {
    assert holder == -1 && Stop !in q;
    assert (q + [Stop])[..|q|] == q;
  }
}
