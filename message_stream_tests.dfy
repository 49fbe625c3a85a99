/** The unit tests of the message stream builder, each written as a method whose
    postconditions are the test's assertions: the graph is built through the
    `StreamGraph` methods and then read back through `GetRegisteredOperatorSpecs`. */
module MessageStreamTests {
  import opened OperatorSpecs
  import opened StreamGraphs

  /** The inner message of a test envelope. */
  datatype MessageType = MessageType(value: string, eventTime: int)

  /** The messages the tests thread through the graph: input envelopes and the
      output envelopes their user functions build. */
  datatype Envelope =
    | TestMessageEnvelope(key: string, message: MessageType)
    | TestOutputMessageEnvelope(key: string, payload: int)

  /** Length of an input envelope's value (output envelopes carry none). */
  function ValueLength(m: Envelope): nat
  {
    if m.TestMessageEnvelope? then |m.message.value| else 0
  }

  /** The test's map function: same key, payload one more than the value's length. */
  function XMap(m: Envelope): Envelope
  {
    TestOutputMessageEnvelope(m.key, ValueLength(m) + 1)
  }

  /** The test's filter: messages with an event time after 123456. */
  function XFilter(m: Envelope): bool
  {
    m.TestMessageEnvelope? && m.message.eventTime > 123456
  }

  /** The three distinct output envelopes the flatMap function always returns. */
  const FlatOuts: seq<Envelope> := [
    TestOutputMessageEnvelope("flat-1", 1),
    TestOutputMessageEnvelope("flat-2", 2),
    TestOutputMessageEnvelope("flat-3", 3)
  ]

  function XFlatMap(m: Envelope): seq<Envelope>
  {
    FlatOuts
  }

  /** The test's joiner: the first message's key, the sum of both values' lengths. */
  function Joiner(m1: Envelope, m2: Envelope): Envelope
  {
    TestOutputMessageEnvelope(m1.key, ValueLength(m1) + ValueLength(m2))
  }

  const XSink: SinkFunction := SinkFunction(1)

  /** A session window whose internal window function is `SessionWindowFn`. */
  const SessionWindowFn: WindowFn := WindowFn(1)
  const SessionWindow: WindowDescriptor := WindowDescriptor(SessionWindowFn)

  const XTestMsg: Envelope := TestMessageEnvelope("test-msg-key", MessageType("123456789", 0))
  const EarlyMsg: Envelope := TestMessageEnvelope("", MessageType("", 11111))
  const LateMsg: Envelope := TestMessageEnvelope("", MessageType("", 999999))
  const JoinMsg1: Envelope := TestMessageEnvelope("test-join-1", MessageType("join-msg-001", 11111))
  const JoinMsg2: Envelope := TestMessageEnvelope("test-join-2", MessageType("join-msg-002", 22222))

  /** `map` registers one stream operator on its input, pointing at the returned
      stream, whose transform yields exactly the mapped message. */
  method TestMap() returns (subs: seq<OperatorSpec<Envelope>>, outputStream: StreamId, cOutputMsg: seq<Envelope>)
    ensures |subs| == 1 && subs[0].StreamOperatorSpec?
    ensures subs[0].output == Some(outputStream)
    ensures forall e :: subs[0].transformFn(e) == [XMap(e)]
    ensures cOutputMsg == subs[0].transformFn(XTestMsg)
    ensures |cOutputMsg| == 1 && cOutputMsg[0].key == XTestMsg.key
    ensures cOutputMsg[0] == TestOutputMessageEnvelope("test-msg-key", 10)
  {
    var graph := new StreamGraph<Envelope>();
    var inputStream := graph.NewStream();
    outputStream := graph.Map(inputStream, XMap);
    subs := graph.GetRegisteredOperatorSpecs(inputStream);
    cOutputMsg := subs[0].transformFn(XTestMsg);
  }

  /** `flatMap` registers one stream operator whose transform is the user
      function itself. */
  method TestFlatMap() returns (subs: seq<OperatorSpec<Envelope>>, outputStream: StreamId)
    ensures |subs| == 1 && subs[0].StreamOperatorSpec?
    ensures subs[0].output == Some(outputStream)
    ensures subs[0].transformFn == XFlatMap
    ensures forall e :: subs[0].transformFn(e) == FlatOuts
  {
    var graph := new StreamGraph<Envelope>();
    var inputStream := graph.NewStream();
    outputStream := graph.FlatMap(inputStream, XFlatMap);
    subs := graph.GetRegisteredOperatorSpecs(inputStream);
  }

  /** `filter` registers one stream operator that drops a message with event
      time 11111 and re-emits, unchanged, one with event time 999999. */
  method TestFilter() returns (subs: seq<OperatorSpec<Envelope>>, outputStream: StreamId)
    ensures |subs| == 1 && subs[0].StreamOperatorSpec?
    ensures subs[0].output == Some(outputStream)
    ensures subs[0].transformFn(EarlyMsg) == []
    ensures subs[0].transformFn(LateMsg) == [LateMsg]
  {
    var graph := new StreamGraph<Envelope>();
    var inputStream := graph.NewStream();
    outputStream := graph.Filter(inputStream, XFilter);
    subs := graph.GetRegisteredOperatorSpecs(inputStream);
    FilterKeepsExactlyAccepted(XFilter, EarlyMsg);
    FilterKeepsExactlyAccepted(XFilter, LateMsg);
  }

  /** `sink` registers one sink spec holding the user's sink function and no
      output stream; no stream is allocated for it. */
  method TestSink() returns (subs: seq<OperatorSpec<Envelope>>, streams: nat)
    ensures |subs| == 1 && subs[0].SinkOperatorSpec?
    ensures subs[0].sinkFn == XSink
    ensures subs[0].output == None
    ensures streams == 1
  {
    var graph := new StreamGraph<Envelope>();
    var inputStream := graph.NewStream();
    graph.Sink(inputStream, XSink);
    subs := graph.GetRegisteredOperatorSpecs(inputStream);
    streams := |graph.registered|;
  }

  /** `window` registers one window spec, holding the descriptor's internal
      window function, whose output is the returned stream. */
  method TestWindow() returns (subs: seq<OperatorSpec<Envelope>>, outStream: StreamId)
    ensures |subs| == 1 && subs[0].WindowOperatorSpec?
    ensures subs[0].output == Some(outStream)
    ensures subs[0].windowFn == SessionWindowFn
  {
    var graph := new StreamGraph<Envelope>();
    var inputStream := graph.NewStream();
    outStream := graph.Window(inputStream, SessionWindow);
    subs := graph.GetRegisteredOperatorSpecs(inputStream);
  }

  /** `join` registers one partial join on each source, both pointing at the
      returned stream; each partial, given its own side's message first,
      computes the joiner on (message 1, message 2). */
  method TestJoin() returns (subs1: seq<OperatorSpec<Envelope>>, subs2: seq<OperatorSpec<Envelope>>,
                             joinOutput: StreamId, xOut1: Envelope, xOut2: Envelope)
    ensures |subs1| == 1 && subs1[0].PartialJoinOperatorSpec?
    ensures |subs2| == 1 && subs2[0].PartialJoinOperatorSpec?
    ensures subs1[0].output == Some(joinOutput) && subs2[0].output == Some(joinOutput)
    ensures xOut1 == subs1[0].joinFn(JoinMsg1, JoinMsg2)
    ensures xOut2 == subs2[0].joinFn(JoinMsg2, JoinMsg1)
    ensures xOut1 == TestOutputMessageEnvelope("test-join-1", 24)
    ensures xOut2 == TestOutputMessageEnvelope("test-join-1", 24)
  {
    var graph := new StreamGraph<Envelope>();
    var source1 := graph.NewStream();
    var source2 := graph.NewStream();
    joinOutput := graph.Join(source1, source2, Joiner);
    subs1 := graph.GetRegisteredOperatorSpecs(source1);
    subs2 := graph.GetRegisteredOperatorSpecs(source2);
    xOut1 := subs1[0].joinFn(JoinMsg1, JoinMsg2);
    xOut2 := subs2[0].joinFn(JoinMsg2, JoinMsg1);
  }

  /** What the merge test checks of each merged stream's specs: a single stream
      operator pointing at the merge output that forwards every message as is. */
  ghost predicate IsMergeOperator(subs: seq<OperatorSpec<Envelope>>, mergeOutput: StreamId)
  {
    && |subs| == 1
    && subs[0].StreamOperatorSpec?
    && subs[0].output == Some(mergeOutput)
    && forall e :: subs[0].transformFn(e) == [e]
  }

  /** Merging a stream with two others leaves one forwarding operator on each
      of the three, all pointing at the same returned stream. */
  method TestMerge() returns (subs0: seq<OperatorSpec<Envelope>>, subs1: seq<OperatorSpec<Envelope>>,
                              subs2: seq<OperatorSpec<Envelope>>, mergeOutput: StreamId)
    ensures IsMergeOperator(subs0, mergeOutput)
    ensures IsMergeOperator(subs1, mergeOutput)
    ensures IsMergeOperator(subs2, mergeOutput)
  {
    var graph := new StreamGraph<Envelope>();
    var merge1 := graph.NewStream();
    var other1 := graph.NewStream();
    var other2 := graph.NewStream();
    ghost var before := graph.registered;
    mergeOutput := graph.Merge(merge1, [other1, other2]);
    assert [merge1] + [other1, other2] == [merge1, other1, other2];
    RegisterOnEachDistinct(before + [[]], [merge1, other1, other2],
                           StreamOperatorSpec(IdentitySingleton(), Some(mergeOutput)));
    subs0 := graph.GetRegisteredOperatorSpecs(merge1);
    subs1 := graph.GetRegisteredOperatorSpecs(other1);
    subs2 := graph.GetRegisteredOperatorSpecs(other2);
  }
}
