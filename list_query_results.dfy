/** The query-results producer that presents a random-access list to the parallel query engine. */
module QueryOperators {
  import opened Results
  import opened PartitionedStreams

  /**
   * A list together with the partitioning configuration chosen for it. All three
   * fields are set once when the value is built and never change afterwards.
   */
  datatype ListQueryResults<T> = ListQueryResults(source: IList<T>, partitionCount: int, useStriping: bool)
  {
    /** Builds the producer, keeping its arguments exactly as given. */
    static function Create(source: IList<T>, partitionCount: int, useStriping: bool): (r: ListQueryResults<T>)
      ensures r.source == source && r.partitionCount == partitionCount && r.useStriping == useStriping
      ensures r.ElementsCount() == |source|
      ensures forall i | 0 <= i < |source| :: r.GetElement(i) == Ok(source[i])
    {
      ListQueryResults(source, partitionCount, useStriping)
    }

    /** The element at an index of the list; an index outside the list is an error. */
    function GetElement(index: int): (r: Result<T>)
      ensures r.Ok? <==> 0 <= index < |source|
      ensures r.Ok? ==> r.value == source[index]
      ensures r.Err? ==> r.error == IndexOutOfRange
    {
      if 0 <= index < |source| then Ok(source[index]) else Err(IndexOutOfRange)
    }

    /** The number of elements: exactly the indexes GetElement answers lie below it. */
    function ElementsCount(): (n: int)
      ensures 0 <= n <= MaxInt32
      ensures n == |source|
      ensures forall i :: GetElement(i).Ok? <==> 0 <= i < n
    {
      |source|
    }

    /** A list producer always supports indexed access: every index below the count is answered. */
    function IsIndexible(): (r: bool)
      ensures r
      ensures forall i | 0 <= i < ElementsCount() :: GetElement(i).Ok?
    {
      true
    }

    /**
     * The int-keyed stream for this list, built from the stored configuration and
     * nothing else; an exception of the partitioning routine passes through.
     */
    function GetPartitionedStream(partition: Partitioner<T>): (s: Result<PartitionedStream<T, int>>)
      ensures s == partition(source, partitionCount, useStriping)
    {
      partition(source, partitionCount, useStriping)
    }

    /**
     * Hands the recipient this producer's int-keyed stream, in a single call; when
     * building the stream throws, the recipient is never called.
     */
    method GivePartitionedStream(partition: Partitioner<T>, recipient: Recipient<T>) returns (r: Result<()>)
      modifies recipient
      ensures r.Ok? <==> GetPartitionedStream(partition).Ok?
      ensures r.Err? ==> r.error == GetPartitionedStream(partition).error
      ensures recipient.received ==
                if r.Ok? then old(recipient.received) + [GetPartitionedStream(partition).value]
                else old(recipient.received)
    {
      var partitionedStream := GetPartitionedStream(partition);
      match partitionedStream
      case Err(e) =>
        r := Err(e);
      case Ok(stream) =>
        recipient.Receive(stream);
        r := Ok(());
    }

    /** What a consumer collects by calling GetElement(i), GetElement(i + 1), ..., up to the count. */
    function ReadFrom(i: nat): seq<T>
      requires i <= ElementsCount()
      decreases ElementsCount() - i
    {
      if i == ElementsCount() then [] else [GetElement(i).value] + ReadFrom(i + 1)
    }

    /** Reading the indexed view from i to the end gives back the list from i, in order. */
    lemma {:induction false} ReadFromIsSource(i: nat)
      requires i <= ElementsCount()
      ensures ReadFrom(i) == source[i..]
      decreases ElementsCount() - i
    {
      if i < ElementsCount() {
        ReadFromIsSource(i + 1);
      }
    }

    /** The indexed view as a whole is the wrapped list, unchanged. */
    lemma IndexedViewIsSource()
      ensures ReadFrom(0) == source
    {
      ReadFromIsSource(0);
    }
  }
}
