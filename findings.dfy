/** The consumer as written tells the sentinel from work items by value: the
    sentinel is `None`, and any item that is `None` passes the same test. */
module Findings {
  import opened Workers
  import opened Scheduler

  /** A value as the consumer sees it when items are not tagged: `None`, or
      anything else. */
  datatype Value<V> = None | Some(v: V)

  /** The destination the consumer's loop builds from the stream it reads,
      stopping at the first value that `is` the sentinel `None`: it is the
      longest prefix of the stream without `None`. */
  function DrainAsWritten<V>(stream: seq<Value<V>>): (destination: seq<Value<V>>)
    ensures |destination| <= |stream|
    ensures destination == stream[..|destination|]
    ensures None !in destination
    ensures |destination| == |stream| || stream[|destination|] == None
  {
    if stream == [] || stream[0] == None then []
    else [stream[0]] + DrainAsWritten(stream[1..])
  }

  /** A source with a `None` item in it, followed by the producer's sentinel:
      the consumer stops at that item and the rest of the source is lost. */
  lemma NoneItemEndsTransfer()
    ensures DrainAsWritten([Some(1), None, Some(2)] + [None]) == [Some(1)]
    ensures DrainAsWritten([Some(1), None, Some(2)] + [None]) != [Some(1), None, Some(2)]
  {
    assert ([Some(1), None, Some(2)] + [None])[1..] == [None, Some(2), None];
  }

  /** The same source through the model, where the sentinel is a tag of its
      own: the `None` item is delivered like any other and nothing is lost. */
  method TaggedNoneItemSurvives() returns (destination: seq<Value<int>>)
    ensures destination == [Some(1), None, Some(2)]
  {
    var source := [Some(1), None, Some(2)];
    var sent, emitted, finals, left := Run(source, 3, 1, false);
    assert source[..sent] == source;
    destination := finals[0].destination;
  }
}
