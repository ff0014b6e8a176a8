# List query results and the QIL parameter node, in Dafny

This project models two small pieces of the .NET runtime libraries and proves their contracts.

- **`ListQueryResults<T>`** is from the parallel LINQ engine. It presents a random-access list as a query-results producer. It always reports itself as indexible. It answers count and element-at queries straight from the list. It hands a downstream recipient the int-keyed partitioned stream built from the list, the stored partition count and the striping flag. It is modelled as an immutable datatype, `QueryOperators.ListQueryResults`, because the source's three fields are `readonly` and set only by the constructor. The list is an `IList<T>`: a `seq<T>` whose length fits in a 32-bit `int`.
- **`QilParameter`** is from the XSLT compiler's intermediate language (QIL). It is a node with exactly two children: slot 0 is the binding (default value) and slot 1 is the name. The indexer reads and writes the slots. Any other index throws `IndexOutOfRangeException`. It is modelled as a class, `Qil.QilParameter`, with mutable fields `binding` and `name`. Its setters are `modifies this` methods. Each setter's postcondition states the new child list as a pure function of the old one (`Qil.Assign`). Lemmas about `Assign` and about series of assignments (`Qil.AssignAll`) carry the "one slot changes, nothing else does" property across many calls.

The helpers these two rely on are not part of this model. They are kept opaque:
- The routine that splits the list into partitions (`ExchangeUtilities.PartitionDataSource`) is a function-valued parameter of type `PartitionedStreams.Partitioner<T>`. It either returns a stream or throws: its result is a `Result`, and any `Err` result (typically `PartitioningFailed`) stands for the exception it raises. Its result type fixes the order-key type to `int`. The stream itself is an abstract type, `PartitionedStreams.PartitionedStream<T, K>`.
- The recipient (`IPartitionedStreamRecipient<T>`) is a `PartitionedStreams.Recipient<T>` object. It is observed only through the list of streams it has received.

Nullable references are `Results.Option` (`None` is null). A thrown exception is `Results.Err(e)`: `IndexOutOfRange` for a bad index, or whichever error the partitioning routine returns for its exception.

## Model

| member | source | states |
|---|---|---|
| `QueryOperators.ListQueryResults.Create` | src/libraries/System.Linq.Parallel/src/System/Linq/Parallel/QueryOperators/ListQueryResults.cs:24-29 | the producer keeps the list, the partition count and the striping flag exactly as given; its count is the list's length and its element at each index is the list's |
| `QueryOperators.ListQueryResults.GetElement` | src/libraries/System.Linq.Parallel/src/System/Linq/Parallel/QueryOperators/ListQueryResults.cs:47-50 | succeeds exactly for indexes in `[0, |source|)` and then returns `source[index]`; every other index is an out-of-range error |
| `QueryOperators.ListQueryResults.ElementsCount` | src/libraries/System.Linq.Parallel/src/System/Linq/Parallel/QueryOperators/ListQueryResults.cs:42-45 | the count is the list's length, lies in `[0, Int32.MaxValue]`, and GetElement succeeds at an index if and only if the index is below it |
| `QueryOperators.ListQueryResults.IsIndexible` | src/libraries/System.Linq.Parallel/src/System/Linq/Parallel/QueryOperators/ListQueryResults.cs:37-40 | true for every list and configuration, and indexed access really does answer every index below the count |
| `QueryOperators.ListQueryResults.GetPartitionedStream` | src/libraries/System.Linq.Parallel/src/System/Linq/Parallel/QueryOperators/ListQueryResults.cs:52-55 | the int-keyed stream, or the partitioner's exception, is the partitioner's result for the stored list, count and striping flag, so it depends on nothing else and two calls give the same result |
| `QueryOperators.ListQueryResults.GivePartitionedStream` | src/libraries/System.Linq.Parallel/src/System/Linq/Parallel/QueryOperators/ListQueryResults.cs:31-35 | when the stream is built, the recipient is called exactly once, with that stream; when building it throws, the exception propagates and the recipient is never called; the producer itself cannot change |
| `QueryOperators.ListQueryResults.ReadFromIsSource` | src/libraries/System.Linq.Parallel/src/System/Linq/Parallel/QueryOperators/ListQueryResults.cs:42-50 | calling GetElement at i, i+1, …, up to ElementsCount gives back `source[i..]`, in order |
| `QueryOperators.ListQueryResults.IndexedViewIsSource` | src/libraries/System.Linq.Parallel/src/System/Linq/Parallel/QueryOperators/ListQueryResults.cs:42-50 | the whole indexed view (count plus element-at) is the wrapped list, unchanged |
| `PartitionedStreams.Recipient.Receive` | src/libraries/System.Linq.Parallel/src/System/Linq/Parallel/QueryOperators/ListQueryResults.cs:34 | one receive call appends exactly the given stream to what the recipient has received |
| `Qil.Assign` | src/libraries/System.Private.Xml/src/System/Xml/Xsl/QIL/QilParameter.cs:52-57 | assigning at an index keeps the list's length, replaces the child at that index and leaves every other child as it was; an index outside the list changes nothing |
| `Qil.AssignAllExtend` | src/libraries/System.Private.Xml/src/System/Xml/Xsl/QIL/QilParameter.cs:50-58 | one more indexer assignment after a series of them is the series extended by that write, so successive writes compose in order |
| `Qil.AssignAllAt` | src/libraries/System.Private.Xml/src/System/Xml/Xsl/QIL/QilParameter.cs:50-58 | after any series of indexer assignments, each child holds the value last written at its index, or its original value if none was |
| `Qil.AssignAllOutside` | src/libraries/System.Private.Xml/src/System/Xml/Xsl/QIL/QilParameter.cs:56 | a series of assignments that all throw leaves the children exactly as they were |
| `Qil.QilParameter.constructor` | src/libraries/System.Private.Xml/src/System/Xml/Xsl/QIL/QilParameter.cs:23-27 | the binding is the default value, the name is the given name, and the node type and XML type are stored |
| `Qil.QilParameter.GetItem` | src/libraries/System.Private.Xml/src/System/Xml/Xsl/QIL/QilParameter.cs:41-48 | reading succeeds exactly for indexes 0 and 1 and returns the child at that index of `[binding, name]`; any other index throws IndexOutOfRange |
| `Qil.QilParameter.Count` | src/libraries/System.Private.Xml/src/System/Xml/Xsl/QIL/QilParameter.cs:34-37 | the count is the length of the child list, and an index is readable if and only if it is below the count |
| `Qil.QilParameter.SetItem` | src/libraries/System.Private.Xml/src/System/Xml/Xsl/QIL/QilParameter.cs:50-58 | writing succeeds exactly for indexes below Count; the new children are the old ones with that one slot replaced, or unchanged when it throws IndexOutOfRange; field by field, only the written slot's field changes; a successful write reads back; node type and XML type are unchanged |
| `Qil.QilParameter.SetItemTwice` | src/libraries/System.Private.Xml/src/System/Xml/Xsl/QIL/QilParameter.cs:50-58 | two indexer writes in a row leave the children that AssignAll gives for those two writes in order, which ties the series lemmas to the class |
| `Qil.QilParameter.DefaultValue` | src/libraries/System.Private.Xml/src/System/Xml/Xsl/QIL/QilParameter.cs:69-71 | the default value is what the indexer returns at 0 |
| `Qil.QilParameter.SetDefaultValue` | src/libraries/System.Private.Xml/src/System/Xml/Xsl/QIL/QilParameter.cs:72 | setting the default value writes slot 0 and nothing else; the name reads as before |
| `Qil.QilParameter.Name` | src/libraries/System.Private.Xml/src/System/Xml/Xsl/QIL/QilParameter.cs:78-80 | the name is what the indexer returns at 1 |
| `Qil.QilParameter.SetName` | src/libraries/System.Private.Xml/src/System/Xml/Xsl/QIL/QilParameter.cs:81 | setting the name writes slot 1 and nothing else; the binding reads as before |

## Left out

- `ExchangeUtilities.PartitionDataSource` is not part of this model. Its range and striping arithmetic is therefore not modelled. It is a parameter (`Partitioner<T>`), so nothing is claimed about how partitions cover the list, nor about which arguments make it throw.
- The internals of `PartitionedStream` and of `IPartitionedStreamRecipient` are not part of this model. `PartitionedStream` is an abstract type. The recipient's generic `Receive<TKey>` is modelled only at the key type this producer uses, `int`. Its effect is only recorded, not interpreted, and it is assumed to return normally.
- `QueryOperators.ListQueryResults.GivePartitionedStream`: an exception thrown by the recipient's `Receive<int>` would also propagate out of the method. The model's recipient never throws, so its contract reports success whenever the stream is built.
- Parallel execution, cancellation and fault aggregation in the query engine: these are concurrency concerns outside both files.
- `QueryOperators.ListQueryResults.GetElement`: the list's indexer decides which exception an out-of-range index raises (`List<T>` and an array seen as `IList<T>` raise `ArgumentOutOfRangeException`; another `IList<T>` may raise something else). Every such exception is modelled as the single error `IndexOutOfRange`.
- The element type's run-time nullability and aliasing: the list is taken as a value, so a caller mutating the list during a query is not modelled.
- `Qil.QilParameter.Name`: the source's getter downcasts the stored node to `QilName`, and that cast can fail. The model treats names as the same opaque node type and does not model the failing cast.
- The `QilIterator` and `QilNode` base classes are not part of this model. The binding is a plain field. The node type and `XmlQueryType` are opaque type parameters.
- The null-forgiving operator (`!`) in the indexer getter does not check anything at run time. So a null slot is returned as null (`None`), not as an error.
