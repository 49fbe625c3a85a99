# Message stream operator-graph builder (Samza operators), modelled in Dafny

This project models the fluent builder behind `MessageStreamImpl` in Samza's
operator layer, as its unit test `TestMessageStreamImpl` exercises it. A user
chains `map`, `flatMap`, `filter`, `sink`, `window`, `join` and `merge` on message
streams. Each call creates a fresh downstream stream (except `sink`). It registers
an operator spec on each input stream that points at that downstream stream, and it
returns the downstream stream. The registered specs are read back through
`getRegisteredOperatorSpecs()`.

Files:

- `operator_spec.dfy` (module `OperatorSpecs`): the operator spec as a tagged
  datatype with four variants: stream operator, sink, window and partial join.
  Every variant carries an optional output stream. The module also holds the fixed
  shapes the calls are lowered to: `MapTransform` (`e ↦ [f(e)]`), `FilterTransform`
  (`e ↦ [e]` or `[]`), `IdentitySingleton` (what each merge input forwards) and
  `Flipped` (the joiner as seen from the second join input). Sink functions and
  window functions are opaque tokens compared by equality.
- `stream_graph.dfy` (module `StreamGraphs`): the graph as an arena. Stream `s` is
  index `s`, so two specs share an output stream exactly when they store the same
  index. The class `StreamGraph` holds the registered specs of every stream and has
  one method per builder call. Each method is specified by the pure functions
  `RegisterOn` and `RegisterOnEach`. Lemmas about those functions say which streams
  gain which specs, that registration only appends, and that every spec points
  forward to a younger stream. From that last fact, the graph is acyclic.
- `message_stream_tests.dfy` (module `MessageStreamTests`): each JUnit test becomes
  a method whose postconditions are the test's assertions. The test's envelopes and
  user functions are modelled as values and Dafny functions.

## Model

| member | source | states |
|---|---|---|
| `OperatorSpecs.MapYieldsOne` | samza-operator/src/test/java/org/apache/samza/operators/TestMessageStreamImpl.java:72-76 | the transform stored for `map(f)` yields exactly one message, and it is `f(e)` |
| `OperatorSpecs.FilterKeepsExactlyAccepted` | samza-operator/src/test/java/org/apache/samza/operators/TestMessageStreamImpl.java:109-120 | the transform stored for `filter(p)` returns the same envelope alone iff `p(e)`, and the empty collection iff `!p(e)` |
| `OperatorSpecs.PartialJoinsAgree` | samza-operator/src/test/java/org/apache/samza/operators/TestMessageStreamImpl.java:171-176 | the second partial join applied to `(m2, m1)` equals the joiner applied to `(m1, m2)`, which is what the first partial computes |
| `StreamGraphs.RegisterOnEachAt` | samza-operator/src/test/java/org/apache/samza/operators/TestMessageStreamImpl.java:186-189 | registering on a list of streams appends to each stream one copy of the spec per occurrence in the list; every other stream keeps its specs |
| `StreamGraphs.RegisterOnEachOnlyAppends` | samza-operator/src/test/java/org/apache/samza/operators/TestMessageStreamImpl.java:186-189 | what a stream already holds stays a prefix of its specs, and its count grows by its number of occurrences |
| `StreamGraphs.RegisterOnEachDistinct` | samza-operator/src/test/java/org/apache/samza/operators/TestMessageStreamImpl.java:186-197 | with distinct streams, each named stream gains exactly one spec and the others are unchanged |
| `StreamGraphs.AllocateKeepsWellFormed` | samza-operator/src/test/java/org/apache/samza/operators/TestMessageStreamImpl.java:56 | creating a new, empty stream keeps every spec pointing forward |
| `StreamGraphs.RegisterOnKeepsWellFormed` | samza-operator/src/test/java/org/apache/samza/operators/TestMessageStreamImpl.java:59 | registering a spec that points at a younger stream, or at none, keeps the graph well formed |
| `StreamGraphs.RegisterOnEachKeepsWellFormed` | samza-operator/src/test/java/org/apache/samza/operators/TestMessageStreamImpl.java:186 | registering one forward-pointing spec on many streams keeps the graph well formed |
| `StreamGraphs.PathsGoForward` | samza-operator/src/test/java/org/apache/samza/operators/TestMessageStreamImpl.java:59 | along any chain of feeding streams the streams only get younger, so no stream reaches itself (the graph is acyclic) |
| `StreamGraphs.StreamGraph.constructor` | samza-operator/src/test/java/org/apache/samza/operators/TestMessageStreamImpl.java:56 | an empty graph |
| `StreamGraphs.StreamGraph.NewStream` | samza-operator/src/test/java/org/apache/samza/operators/TestMessageStreamImpl.java:56 | `new MessageStreamImpl<>()`: one more stream, with no registered specs |
| `StreamGraphs.StreamGraph.GetRegisteredOperatorSpecs` | samza-operator/src/test/java/org/apache/samza/operators/TestMessageStreamImpl.java:60 | the specs registered on a stream, in registration order |
| `StreamGraphs.StreamGraph.Map` | samza-operator/src/test/java/org/apache/samza/operators/TestMessageStreamImpl.java:59-64 | allocates the output stream and appends to the source one stream operator with the map lowering that points at it |
| `StreamGraphs.StreamGraph.FlatMap` | samza-operator/src/test/java/org/apache/samza/operators/TestMessageStreamImpl.java:88-95 | allocates the output stream and appends a stream operator holding the user function verbatim |
| `StreamGraphs.StreamGraph.Filter` | samza-operator/src/test/java/org/apache/samza/operators/TestMessageStreamImpl.java:102-107 | allocates the output stream and appends a stream operator with the filter lowering |
| `StreamGraphs.StreamGraph.Sink` | samza-operator/src/test/java/org/apache/samza/operators/TestMessageStreamImpl.java:130-136 | appends a sink spec holding the sink function, with no output stream, and allocates nothing |
| `StreamGraphs.StreamGraph.Window` | samza-operator/src/test/java/org/apache/samza/operators/TestMessageStreamImpl.java:143-149 | allocates the output stream and appends a window spec holding the descriptor's internal window function |
| `StreamGraphs.StreamGraph.Join` | samza-operator/src/test/java/org/apache/samza/operators/TestMessageStreamImpl.java:158-168 | allocates one output stream; appends a partial join with the joiner to the first source and one with the flipped joiner to the second, both pointing at it |
| `StreamGraphs.StreamGraph.Merge` | samza-operator/src/test/java/org/apache/samza/operators/TestMessageStreamImpl.java:186-189 | allocates one output stream and appends a forwarding stream operator pointing at it to the source and to every other stream, in order |
| `MessageStreamTests.TestMap` | samza-operator/src/test/java/org/apache/samza/operators/TestMessageStreamImpl.java:55-77 | one stream operator on the input, output is the returned stream, transform is `e ↦ [xMap(e)]`; on key `"test-msg-key"`, value `"123456789"` it yields one envelope with that key and payload 10 |
| `MessageStreamTests.TestFlatMap` | samza-operator/src/test/java/org/apache/samza/operators/TestMessageStreamImpl.java:80-96 | one stream operator, output is the returned stream, transform is the user function itself |
| `MessageStreamTests.TestFilter` | samza-operator/src/test/java/org/apache/samza/operators/TestMessageStreamImpl.java:99-121 | one stream operator, output is the returned stream; event time 11111 gives the empty collection, 999999 gives the same envelope alone |
| `MessageStreamTests.TestSink` | samza-operator/src/test/java/org/apache/samza/operators/TestMessageStreamImpl.java:124-137 | one sink spec holding the sink function, with no output stream; no stream is allocated |
| `MessageStreamTests.TestWindow` | samza-operator/src/test/java/org/apache/samza/operators/TestMessageStreamImpl.java:140-150 | one window spec, output is the returned stream, holding the session window's internal window function |
| `MessageStreamTests.TestJoin` | samza-operator/src/test/java/org/apache/samza/operators/TestMessageStreamImpl.java:153-177 | one partial join on each source, both pointing at the returned stream; partial 1 on `(m1, m2)` and partial 2 on `(m2, m1)` both yield key `"test-join-1"`, payload 24 |
| `MessageStreamTests.TestMerge` | samza-operator/src/test/java/org/apache/samza/operators/TestMessageStreamImpl.java:180-202 | each of the three merged streams holds exactly one stream operator, all pointing at the returned stream, each forwarding every envelope as the singleton `[e]` |

## Left out

- The implementation files of `MessageStreamImpl` and of the operator spec classes are not part of this model. The builder's behaviour comes from what `TestMessageStreamImpl` asserts.
- StreamGraphs.StreamGraph.Join: joining a stream with itself appends both partial joins to that one stream. This is the model's own choice: `TestMessageStreamImpl` only joins two distinct streams and does not cover the case.
- StreamGraphs.StreamGraph.Merge: a stream listed more than once (as the source and among the others, or twice among the others) gets one forwarding operator per occurrence. This is the model's own choice: `TestMessageStreamImpl` only merges three distinct streams and does not cover the case.
- Registered specs are kept as a sequence in registration order. `getRegisteredOperatorSpecs()` returns a `Collection`, and the unit test only inspects collections of one element, so no order or duplicate rule beyond that is checked.
- One message type `M` serves the whole graph. Java's generics let `map`, `window` and `join` change the element type from stream to stream. The tests instantiate `M` with a union of the test's input and output envelopes. The test's user functions are total on that union, and their branches for output envelopes are never exercised.
- Unstubbed Mockito values (a `null` key or value, a zero event time) are modelled as empty strings and `0`. Mock identity is modelled as value equality of envelopes.
- Null arguments, an empty `others` list for `merge` and graph freezing: `TestMessageStreamImpl` does not exercise these errors, so they are not modelled.
- The sink function's side effects (`send` on the message collector, `commit` on the task coordinator) are runtime I/O. The sink function is an opaque token.
- Window descriptors and internal window functions are mocked foreign objects. The descriptor is reduced to the internal window function it yields, which is an opaque token.
- Execution of the graph, state stores, join buffering and concurrency are not modelled; none of them appears in the unit test.
- Event times are unbounded integers. The only operation on them is a comparison with small constants, so 64-bit width does not matter.
