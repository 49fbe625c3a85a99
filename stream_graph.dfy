/** The operator graph a user builds by chaining calls on message streams.

    Streams live in an arena: stream `s` is position `s`, and what is stored there
    is the sequence of operator specs registered on it, in registration order. A
    builder call allocates its downstream stream at the end of the arena and
    appends one spec to each of its input streams. */
module StreamGraphs {
  import opened OperatorSpecs

  type Graph<!M> = seq<seq<OperatorSpec<M>>>

  /** Appends `spec` to the specs registered on stream `s`. */
  function RegisterOn<M>(g: Graph<M>, s: StreamId, spec: OperatorSpec<M>): Graph<M>
    requires s < |g|
  {
    g[s := g[s] + [spec]]
  }

  /** Registers `spec` on every stream of `ss`, left to right (once per
      occurrence). */
  function RegisterOnEach<M>(g: Graph<M>, ss: seq<StreamId>, spec: OperatorSpec<M>): (r: Graph<M>)
    requires forall k :: 0 <= k < |ss| ==> ss[k] < |g|
    ensures |r| == |g|
    decreases |ss|
  {
    if ss == [] then g
    else RegisterOn(RegisterOnEach(g, ss[..|ss| - 1], spec), ss[|ss| - 1], spec)
  }

  /** No stream is named twice. */
  ghost predicate Distinct(ss: seq<StreamId>)
  {
    forall a, b :: 0 <= a < b < |ss| ==> ss[a] != ss[b]
  }

  /** Registering on a list of streams appends to each stream one copy of `spec`
      per occurrence of it in the list and leaves the others alone. */
  lemma {:induction false} RegisterOnEachAt<M>(g: Graph<M>, ss: seq<StreamId>, spec: OperatorSpec<M>, i: StreamId)
    requires forall k :: 0 <= k < |ss| ==> ss[k] < |g|
    requires i < |g|
    ensures RegisterOnEach(g, ss, spec)[i] == g[i] + seq(multiset(ss)[i], _ => spec)
  {
    if ss != [] {
      var init, last := ss[..|ss| - 1], ss[|ss| - 1];
      RegisterOnEachAt(g, init, spec, i);
      assert ss == init + [last];
      assert multiset(ss) == multiset(init) + multiset{last};
      var before: multiset<StreamId> := multiset(init);
      var n := before[i];
      if i == last {
        assert seq(n, _ => spec) + [spec] == seq(n + 1, _ => spec);
      }
    }
  }

  /** Registration never removes or reorders what a stream already holds. */
  lemma RegisterOnEachOnlyAppends<M>(g: Graph<M>, ss: seq<StreamId>, spec: OperatorSpec<M>, i: StreamId)
    requires forall k :: 0 <= k < |ss| ==> ss[k] < |g|
    requires i < |g|
    ensures g[i] <= RegisterOnEach(g, ss, spec)[i]
    ensures |RegisterOnEach(g, ss, spec)[i]| == |g[i]| + multiset(ss)[i]
  {
    RegisterOnEachAt(g, ss, spec, i);
  }

  /** With no stream named twice, every named stream gains exactly one spec and
      every other stream is unchanged. */
  lemma {:induction false} RegisterOnEachDistinct<M>(g: Graph<M>, ss: seq<StreamId>, spec: OperatorSpec<M>)
    requires forall k :: 0 <= k < |ss| ==> ss[k] < |g|
    requires Distinct(ss)
    ensures forall i :: 0 <= i < |g| ==>
      RegisterOnEach(g, ss, spec)[i] == if i in ss then g[i] + [spec] else g[i]
  {
    if ss != [] {
      var init, last := ss[..|ss| - 1], ss[|ss| - 1];
      RegisterOnEachDistinct(g, init, spec);
      assert last !in init;
      assert ss == init + [last];
    }
  }

  /** A spec registered on stream `owner` of an arena of `n` streams points at a
      stream created after its owner, or nowhere (a sink). */
  ghost predicate Forward<M>(spec: OperatorSpec<M>, owner: StreamId, n: nat)
  {
    spec.output.Some? ==> owner < spec.output.value < n
  }

  /** Every registered spec points forward into the arena. */
  ghost predicate WellFormed<M>(g: Graph<M>)
  {
    forall i, k :: 0 <= i < |g| && 0 <= k < |g[i]| ==> Forward(g[i][k], i, |g|)
  }

  /** Allocating a fresh, empty stream keeps the graph well formed. */
  lemma AllocateKeepsWellFormed<M>(g: Graph<M>)
    requires WellFormed(g)
    ensures WellFormed(g + [[]])
  {
    var h := g + [[]];
    forall i, k | 0 <= i < |h| && 0 <= k < |h[i]| ensures Forward(h[i][k], i, |h|) {
      assert h[i][k] == g[i][k];
    }
  }

  /** Registering specs that point forward from every stream they are put on
      keeps the graph well formed. */
  lemma {:induction false} RegisterOnEachKeepsWellFormed<M>(g: Graph<M>, ss: seq<StreamId>, spec: OperatorSpec<M>)
    requires WellFormed(g)
    requires forall k :: 0 <= k < |ss| ==> ss[k] < |g| && Forward(spec, ss[k], |g|)
    ensures WellFormed(RegisterOnEach(g, ss, spec))
  {
    if ss != [] {
      var init, last := ss[..|ss| - 1], ss[|ss| - 1];
      RegisterOnEachKeepsWellFormed(g, init, spec);
      RegisterOnKeepsWellFormed(RegisterOnEach(g, init, spec), last, spec);
    }
  }

  lemma RegisterOnKeepsWellFormed<M>(g: Graph<M>, s: StreamId, spec: OperatorSpec<M>)
    requires WellFormed(g) && s < |g| && Forward(spec, s, |g|)
    ensures WellFormed(RegisterOn(g, s, spec))
  {
  }

  /** Stream `i` feeds stream `j` when some spec registered on `i` outputs to `j`. */
  ghost predicate Feeds<M>(g: Graph<M>, i: StreamId, j: StreamId)
  {
    i < |g| && exists k :: 0 <= k < |g[i]| && g[i][k].output == Some(j)
  }

  /** A chain of streams, each feeding the next. */
  ghost predicate IsPath<M>(g: Graph<M>, p: seq<StreamId>)
  {
    forall k :: 0 <= k < |p| - 1 ==> Feeds(g, p[k], p[k + 1])
  }

  /** Along any path of a well-formed graph streams only get younger, so no
      stream can reach itself: the graph is acyclic. */
  lemma {:induction false} PathsGoForward<M>(g: Graph<M>, p: seq<StreamId>)
    requires WellFormed(g) && IsPath(g, p) && |p| >= 2
    ensures p[0] < p[|p| - 1]
  {
    assert Feeds(g, p[0], p[1]);
    var k :| 0 <= k < |g[p[0]]| && g[p[0]][k].output == Some(p[1]);
    assert Forward(g[p[0]][k], p[0], |g|);
    if |p| > 2 {
      var rest := p[1..];
      assert forall m :: 0 <= m < |rest| - 1 ==> Feeds(g, rest[m], rest[m + 1]) by {
        forall m | 0 <= m < |rest| - 1 ensures Feeds(g, rest[m], rest[m + 1]) {
          assert Feeds(g, p[m + 1], p[m + 2]);
        }
      }
      PathsGoForward(g, rest);
    }
  }

  /** The arena of message streams. Each builder method allocates the downstream
      stream (except `Sink`), registers its spec(s) on the input stream(s) and
      returns the downstream stream. */
  class StreamGraph<M> {
    var registered: Graph<M>

    ghost predicate Valid()
      reads this
    {
      WellFormed(registered)
    }

    constructor ()
      ensures Valid() && registered == []
    {
      registered := [];
    }

    /** A new message stream, with nothing registered on it yet. */
    method NewStream() returns (s: StreamId)
      requires Valid()
      modifies this
      ensures Valid()
      ensures s == |old(registered)| && registered == old(registered) + [[]]
    {
      AllocateKeepsWellFormed(registered);
      s := |registered|;
      registered := registered + [[]];
    }

    /** The specs registered on stream `s`, in registration order. */
    method GetRegisteredOperatorSpecs(s: StreamId) returns (specs: seq<OperatorSpec<M>>)
      requires s < |registered|
      ensures specs == registered[s]
    {
      specs := registered[s];
    }

    method Map(src: StreamId, f: M -> M) returns (out: StreamId)
      requires Valid() && src < |registered|
      modifies this
      ensures Valid() && out == |old(registered)|
      ensures registered ==
        RegisterOn(old(registered) + [[]], src, StreamOperatorSpec(MapTransform(f), Some(out)))
    {
      out := NewStream();
      registered := RegisterOn(registered, src, StreamOperatorSpec(MapTransform(f), Some(out)));
    }

    method FlatMap(src: StreamId, f: M -> seq<M>) returns (out: StreamId)
      requires Valid() && src < |registered|
      modifies this
      ensures Valid() && out == |old(registered)|
      ensures registered == RegisterOn(old(registered) + [[]], src, StreamOperatorSpec(f, Some(out)))
    {
      out := NewStream();
      registered := RegisterOn(registered, src, StreamOperatorSpec(f, Some(out)));
    }

    method Filter(src: StreamId, p: M -> bool) returns (out: StreamId)
      requires Valid() && src < |registered|
      modifies this
      ensures Valid() && out == |old(registered)|
      ensures registered ==
        RegisterOn(old(registered) + [[]], src, StreamOperatorSpec(FilterTransform(p), Some(out)))
    {
      out := NewStream();
      registered := RegisterOn(registered, src, StreamOperatorSpec(FilterTransform(p), Some(out)));
    }

    /** A sink ends the chain: no downstream stream is allocated. */
    method Sink(src: StreamId, sink: SinkFunction)
      requires Valid() && src < |registered|
      modifies this
      ensures Valid()
      ensures registered == RegisterOn(old(registered), src, SinkOperatorSpec(sink, None))
    {
      registered := RegisterOn(registered, src, SinkOperatorSpec(sink, None));
    }

    /** The descriptor is resolved to its internal window function once, here. */
    method Window(src: StreamId, w: WindowDescriptor) returns (out: StreamId)
      requires Valid() && src < |registered|
      modifies this
      ensures Valid() && out == |old(registered)|
      ensures registered ==
        RegisterOn(old(registered) + [[]], src, WindowOperatorSpec(w.internalWindowFn, Some(out)))
    {
      out := NewStream();
      var windowFn := w.internalWindowFn;
      registered := RegisterOn(registered, src, WindowOperatorSpec(windowFn, Some(out)));
    }

    /** Two partial joins sharing one output: the one on `src` applies the joiner
        as given, the one on `other` with its arguments flipped. */
    method Join(src: StreamId, other: StreamId, j: (M, M) -> M) returns (out: StreamId)
      requires Valid() && src < |registered| && other < |registered|
      modifies this
      ensures Valid() && out == |old(registered)|
      ensures registered ==
        RegisterOn(
          RegisterOn(old(registered) + [[]], src, PartialJoinOperatorSpec(j, Some(out))),
          other, PartialJoinOperatorSpec(Flipped(j), Some(out)))
    {
      out := NewStream();
      registered := RegisterOn(registered, src, PartialJoinOperatorSpec(j, Some(out)));
      registered := RegisterOn(registered, other, PartialJoinOperatorSpec(Flipped(j), Some(out)));
    }

    /** One forwarding stream operator on `src` and on each of `others`, all
        sharing one output. */
    method Merge(src: StreamId, others: seq<StreamId>) returns (out: StreamId)
      requires Valid() && src < |registered|
      requires forall k :: 0 <= k < |others| ==> others[k] < |registered|
      modifies this
      ensures Valid() && out == |old(registered)|
      ensures registered ==
        RegisterOnEach(old(registered) + [[]], [src] + others, StreamOperatorSpec(IdentitySingleton(), Some(out)))
    {
      out := NewStream();
      var spec := StreamOperatorSpec(IdentitySingleton(), Some(out));
      ghost var start := registered;
      assert RegisterOnEach(start, [src], spec) == RegisterOn(start, src, spec) by {
        assert [src][..0] == [];
      }
      registered := RegisterOn(registered, src, spec);
      var i := 0;
      while i < |others|
        invariant 0 <= i <= |others|
        invariant registered == RegisterOnEach(start, [src] + others[..i], spec)
        invariant Valid()
      {
        ghost var done := [src] + others[..i + 1];
        assert done[..|done| - 1] == [src] + others[..i];
        registered := RegisterOn(registered, others[i], spec);
        i := i + 1;
      }
      assert others[..i] == others;
    }
  }
}
