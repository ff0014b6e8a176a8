/**
 * The collaborators of a query-results producer that lie outside the model:
 * the partitioned stream it builds, the routine that builds it from a list,
 * and the recipient it hands the stream to.
 */
module PartitionedStreams {
  import opened Results

  /** The largest value of a 32-bit signed integer, the type of a list's Count. */
  const MaxInt32: int := 0x7fff_ffff

  /** A random-access list: its Count is an int, so it holds at most MaxInt32 elements. */
  type IList<T> = s: seq<T> | |s| <= MaxInt32

  /**
   * A stream of partitions of elements of type T tagged with order keys of type K.
   * Its contents are not part of the model: it is known only by the routine that
   * built it and the arguments it was built from.
   */
  type PartitionedStream<T, K>

  /**
   * The routine that splits a list into an int-keyed partitioned stream, given a
   * partition count and whether to stripe, or throws. Its arithmetic is not part
   * of the model, so it is taken as a parameter wherever it is used.
   */
  type Partitioner<!T> = (IList<T>, int, bool) -> Result<PartitionedStream<T, int>>

  /**
   * A downstream consumer of partitioned streams. What it does with a stream is
   * not part of the model; it is observed only through the streams it has been
   * handed, in order.
   */
  class Recipient<T> {
    var received: seq<PartitionedStream<T, int>>

    constructor ()
      ensures received == []
    {
      received := [];
    }

    /** Accepts one int-keyed partitioned stream. */
    method Receive(stream: PartitionedStream<T, int>)
      modifies this
      ensures received == old(received) + [stream]
    {
      received := received + [stream];
    }
  }
}
