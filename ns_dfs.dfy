/** The second generation of the neural system (src/ns/ns.rs): connections decoded from genes with
    sensor flags, a graph with one node per neuron, sources found by depth-first searches in node order,
    and a forward pass that pushes values from the sources along the edges, queue by queue. */
module DfsNeuralSystems {
  import opened Genes
  import opened Graphs
  import opened Connections
  import NeuralSystems

  /** A connection of this generation (src/ns/conn.rs): two sensor flags instead of a type. */
  datatype SensorConnection = SensorConnection(w: real, sensorIn: bool, sensorOut: bool, inIndex: nat, outIndex: nat)

  /** Decodes a gene: its raw indices are folded into the partition its sensor flag selects and then
      moved to global node indices. A zero-sized partition panics in the source (division by zero). */
  function GeneToConn(g: Gene, shape: NsShape): (c: SensorConnection)
    requires Decodable(g, shape)
    ensures c.w == WeightF(g) && c.sensorIn == (InType(g) == 1) && c.sensorOut == (OutType(g) == 1)
    ensures c.sensorIn ==> c.inIndex < shape.input
    ensures !c.sensorIn ==> shape.input <= c.inIndex < shape.input + shape.hidden
    ensures c.sensorOut ==> shape.input + shape.hidden <= c.outIndex < shape.NNeurons()
    ensures !c.sensorOut ==> shape.input <= c.outIndex < shape.input + shape.hidden
  {
    var sensorIn := InType(g) == 1;
    var sensorOut := OutType(g) == 1;
    var inIndex := InIndex(g) % if sensorIn then shape.input else shape.hidden;
    var inIndex := RenumberInIndex(inIndex, sensorIn, shape.input);
    var outIndex := OutIndex(g) % if sensorOut then shape.output else shape.hidden;
    var outIndex := RenumberOutIndex(outIndex, sensorOut, shape.input, shape.input + shape.hidden);
    SensorConnection(WeightF(g), sensorIn, sensorOut, inIndex, outIndex)
  }

  /** The decoding test with shape (2, 1, 1): the sensor flags of its three genes. */
  lemma GeneToConnTestVector()
    ensures var shape := NsShape(2, 1, 1);
      && Decodable(0x4000_0683, shape) && Decodable(0x4040_0683, shape) && Decodable(0x2000_0683, shape)
      && GeneToConn(0x4000_0683, shape).sensorIn && !GeneToConn(0x4000_0683, shape).sensorOut
      && GeneToConn(0x4040_0683, shape).sensorIn && !GeneToConn(0x4040_0683, shape).sensorOut
      && !GeneToConn(0x2000_0683, shape).sensorIn && GeneToConn(0x2000_0683, shape).sensorOut
  {
    assert InType(0x4000_0683) == 1 && OutType(0x4000_0683) == 0;
    assert InType(0x4040_0683) == 1 && OutType(0x4040_0683) == 0;
    assert InType(0x2000_0683) == 0 && OutType(0x2000_0683) == 1;
  }

  /** The edge a connection becomes in the graph. */
  function ToEdge(c: SensorConnection): Edge {
    Edge(c.inIndex, c.outIndex, c.w)
  }

  /** The graph: `n` nodes valued 0 and one edge per connection, in order. An index outside the nodes
      panics in the graph library. */
  method GetNnGraph(connections: seq<SensorConnection>, n: nat) returns (values: seq<real>, edges: seq<Edge>)
    requires forall i :: 0 <= i < |connections| ==> connections[i].inIndex < n && connections[i].outIndex < n
    ensures |values| == n && forall v :: 0 <= v < n ==> values[v] == 0.0
    ensures |edges| == |connections| && forall i :: 0 <= i < |edges| ==> edges[i] == ToEdge(connections[i])
    ensures EdgesWithin(edges, n)
  {
    values := [];
    while |values| < n
      invariant |values| <= n && forall v :: 0 <= v < |values| ==> values[v] == 0.0
    {
      values := values + [0.0];
    }
    edges := [];
    for i := 0 to |connections|
      invariant |edges| == i && forall j :: 0 <= j < i ==> edges[j] == ToEdge(connections[j])
    {
      edges := edges + [ToEdge(connections[i])];
    }
  }

  // ---- depth-first search from one node ----

  /** The edges leaving `v`, newest first: the order in which the graph library lists them. */
  function OutEdges(es: seq<Edge>, v: nat): (r: seq<Edge>)
    ensures forall j :: 0 <= j < |r| ==> r[j].src == v && r[j] in es
    ensures forall i :: 0 <= i < |es| && es[i].src == v ==> es[i] in r
  {
    if |es| == 0 then []
    else
      var last := es[|es| - 1];
      var rest := OutEdges(es[..|es| - 1], v);
      assert forall i :: 0 <= i < |es| - 1 ==> es[..|es| - 1][i] == es[i];
      if last.src == v then [last] + rest else rest
  }

  /** Every node of `s` is a node index reached from `start`. */
  ghost predicate AllReached(es: seq<Edge>, n: nat, start: nat, s: seq<nat>) {
    forall i :: 0 <= i < |s| ==> s[i] < n && Reaches(es, start, {s[i]})
  }

  /** The first visit of `nx`: push its undiscovered successors, newest edge first. */
  method PushSuccessors(es: seq<Edge>, n: nat, start: nat, stack: seq<nat>, discovered: set<nat>, nx: nat)
    returns (stack': seq<nat>)
    requires EdgesWithin(es, n) && nx < n && Reaches(es, start, {nx})
    requires AllReached(es, n, start, stack)
    ensures AllReached(es, n, start, stack')
    ensures forall x :: x in stack ==> x in stack'
    ensures forall i :: 0 <= i < |es| && es[i].src == nx ==> es[i].dst in discovered || es[i].dst in stack'
  {
    var outs := OutEdges(es, nx);
    stack' := stack;
    var j := 0;
    while j < |outs|
      invariant 0 <= j <= |outs|
      invariant |stack| <= |stack'| && stack'[..|stack|] == stack
      invariant AllReached(es, n, start, stack')
      invariant forall k :: 0 <= k < j ==> outs[k].dst in discovered || outs[k].dst in stack'
    {
      var x := outs[j].dst;
      if x !in discovered {
        assert outs[j] in es;
        var i :| 0 <= i < |es| && es[i] == outs[j];
        assert HasEdge(es, nx, x);
        ReachesExtend(es, start, nx, x);
        stack' := stack' + [x];
      }
      j := j + 1;
    }
    forall x | x in stack ensures x in stack' {
      var i :| 0 <= i < |stack| && stack[i] == x;
      assert stack'[i] == x;
    }
  }

  /** Popping the top leaves every other node of the stack on it. */
  lemma PopKeeps(stack: seq<nat>)
    requires |stack| > 0
    ensures forall x :: x in stack && x != stack[|stack| - 1] ==> x in stack[..|stack| - 1]
  {
    forall x | x in stack && x != stack[|stack| - 1] ensures x in stack[..|stack| - 1] {
      var i :| 0 <= i < |stack| && stack[i] == x;
      assert stack[..|stack| - 1][i] == x;
    }
  }

  /** The state of the search: everything on the stack or emitted is reached from `start`; the emitted
      nodes are the discovered ones, once each, `start` first; and every successor of a discovered node
      is discovered or still on the stack. */
  ghost predicate SearchState(es: seq<Edge>, n: nat, start: nat, stack: seq<nat>, discovered: set<nat>, path: seq<nat>) {
    && AllReached(es, n, start, stack)
    && (forall x :: x in path <==> x in discovered)
    && (forall x :: x in discovered ==> x < n && Reaches(es, start, {x}))
    && Distinct(path)
    && (|path| == 0 ==> stack == [start])
    && (|path| > 0 ==> path[0] == start)
    && (forall i :: 0 <= i < |es| && es[i].src in discovered ==> es[i].dst in discovered || es[i].dst in stack)
  }

  /** Popping the top of the stack keeps the state when the top was discovered already, and keeps all
      of it but the top's successors otherwise. */
  lemma SearchStatePop(es: seq<Edge>, n: nat, start: nat, stack: seq<nat>, discovered: set<nat>, path: seq<nat>)
    requires SearchState(es, n, start, stack, discovered, path) && |stack| > 0
    ensures AllReached(es, n, start, stack[..|stack| - 1])
    ensures stack[|stack| - 1] in discovered ==> SearchState(es, n, start, stack[..|stack| - 1], discovered, path)
  {
    PopKeeps(stack);
    if stack[|stack| - 1] in discovered {
      assert |path| > 0;
    }
  }

  /** The first visit of the top of the stack: it is emitted and discovered, and its successors pushed. */
  lemma VisitStep(es: seq<Edge>, n: nat, start: nat, stack: seq<nat>, discovered: set<nat>, path: seq<nat>, stack': seq<nat>)
    requires SearchState(es, n, start, stack, discovered, path) && |stack| > 0
    requires stack[|stack| - 1] !in discovered
    requires AllReached(es, n, start, stack') && forall x :: x in stack[..|stack| - 1] ==> x in stack'
    requires var nx := stack[|stack| - 1];
      forall i :: 0 <= i < |es| && es[i].src == nx ==> es[i].dst in discovered + {nx} || es[i].dst in stack'
    ensures var nx := stack[|stack| - 1];
      SearchState(es, n, start, stack', discovered + {nx}, path + [nx])
  {
    PopKeeps(stack);
    var nx := stack[|stack| - 1];
    assert nx < n && Reaches(es, start, {nx});
    assert |path| == 0 ==> nx == start;
  }

  /** The depth-first search of the graph library from `start`: pop a node, and on its first visit emit
      it and push its undiscovered successors. It emits `start` first and then every other node reachable
      from `start`, each once. */
  method DfsFrom(es: seq<Edge>, n: nat, start: nat) returns (path: seq<nat>)
    requires EdgesWithin(es, n) && start < n
    ensures |path| > 0 && path[0] == start && Distinct(path)
    ensures forall x: nat :: x in path <==> x < n && Reaches(es, start, {x})
  {
    var stack: seq<nat> := [start];
    var discovered: set<nat> := {};
    path := [];
    ReachesTrivially(es, start, {start});
    while |stack| > 0
      invariant SearchState(es, n, start, stack, discovered, path)
      invariant |discovered| <= n
      decreases n - |discovered|, |stack|
    {
      var nx := stack[|stack| - 1];
      if nx !in discovered {
        var discovered' := discovered + {nx};
        BoundedSetSize(discovered', n);
        SearchStatePop(es, n, start, stack, discovered, path);
        var stack' := PushSuccessors(es, n, start, stack[..|stack| - 1], discovered', nx);
        VisitStep(es, n, start, stack, discovered, path, stack');
        discovered, path, stack := discovered', path + [nx], stack';
      } else {
        SearchStatePop(es, n, start, stack, discovered, path);
        stack := stack[..|stack| - 1];
      }
    }
    forall x: nat | x < n && Reaches(es, start, {x})
      ensures x in path
    {
      var p :| IsPath(es, p) && p[0] == start && p[|p| - 1] in {x};
      PathStaysIn(es, discovered, p, |p| - 1);
    }
  }

  // ---- sources ----

  /** Some node of `sources` reaches `v`. */
  ghost predicate ReachedBy(es: seq<Edge>, sources: seq<nat>, v: nat) {
    exists i :: 0 <= i < |sources| && Reaches(es, sources[i], {v})
  }

  /** No node of `sources` below `v` reaches `v`. */
  ghost predicate UnreachedBefore(es: seq<Edge>, sources: seq<nat>, v: nat) {
    forall i :: 0 <= i < |sources| && sources[i] < v ==> !Reaches(es, sources[i], {v})
  }

  predicate Increasing(s: seq<nat>) {
    forall i, j :: 0 <= i < j < |s| ==> s[i] < s[j]
  }

  lemma ReachedByAdd(es: seq<Edge>, sources: seq<nat>, s: nat, v: nat)
    ensures ReachedBy(es, sources + [s], v) <==> ReachedBy(es, sources, v) || Reaches(es, s, {v})
  {
    var t := sources + [s];
    if ReachedBy(es, sources, v) {
      var i :| 0 <= i < |sources| && Reaches(es, sources[i], {v});
      assert t[i] == sources[i];
    }
    if Reaches(es, s, {v}) {
      assert t[|sources|] == s;
    }
    if ReachedBy(es, t, v) {
      var i :| 0 <= i < |t| && Reaches(es, t[i], {v});
      if i < |sources| {
        assert t[i] == sources[i];
      }
    }
  }

  /** A source added above `v` does not count among the sources below `v`. */
  lemma UnreachedBeforeAdd(es: seq<Edge>, sources: seq<nat>, s: nat, v: nat)
    requires v <= s
    ensures UnreachedBefore(es, sources + [s], v) <==> UnreachedBefore(es, sources, v)
  {
    var t := sources + [s];
    assert forall i :: 0 <= i < |sources| ==> t[i] == sources[i];
  }

  /** The state of the source scan before node `start`: the sources so far lie below `start`, in
      increasing order; the visited nodes are those the sources reach; and every node below `start` has
      been visited and is a source exactly when no earlier source reaches it. */
  ghost predicate Scanned(es: seq<Edge>, n: nat, sources: seq<nat>, internal: set<nat>, start: nat) {
    && Increasing(sources) && (forall i :: 0 <= i < |sources| ==> sources[i] < start)
    && (forall v: nat :: v in internal <==> v < n && ReachedBy(es, sources, v))
    && (forall v: nat :: v < start ==> v in internal)
    && (forall v: nat :: v < start ==> (v in sources <==> UnreachedBefore(es, sources, v)))
  }

  /** The visited nodes after a search from `start` that visited `path`. */
  function Visited(internal: set<nat>, start: nat, path: seq<nat>): (r: set<nat>)
    ensures forall v: nat :: v in r <==> v in internal || v == start || v in path
  {
    internal + {start} + set x: nat | x in path
  }

  /** A node nobody has visited becomes a source, and its search is added to the visited nodes. */
  lemma AddSource(es: seq<Edge>, n: nat, sources: seq<nat>, internal: set<nat>, start: nat, path: seq<nat>)
    requires Scanned(es, n, sources, internal, start) && start < n && start !in internal
    requires forall x: nat :: x in path <==> x < n && Reaches(es, start, {x})
    ensures Scanned(es, n, sources + [start], Visited(internal, start, path), start + 1)
  {
    var t := sources + [start];
    assert forall i :: 0 <= i < |sources| ==> t[i] == sources[i];
    AddSourceVisited(es, n, sources, internal, start, path);
    AddSourceClassified(es, n, sources, internal, start);
  }

  /** The visited nodes after the search from a new source are the nodes some source reaches. */
  lemma AddSourceVisited(es: seq<Edge>, n: nat, sources: seq<nat>, internal: set<nat>, start: nat, path: seq<nat>)
    requires start < n
    requires forall v: nat :: v in internal <==> v < n && ReachedBy(es, sources, v)
    requires forall x: nat :: x in path <==> x < n && Reaches(es, start, {x})
    ensures forall v: nat :: v in Visited(internal, start, path) <==> v < n && ReachedBy(es, sources + [start], v)
  {
    ReachesTrivially(es, start, {start});
    forall v: nat
      ensures v in Visited(internal, start, path) <==> v < n && ReachedBy(es, sources + [start], v)
    {
      ReachedByAdd(es, sources, start, v);
    }
  }

  /** With the new source, every node up to it is a source exactly when no earlier source reaches it. */
  lemma AddSourceClassified(es: seq<Edge>, n: nat, sources: seq<nat>, internal: set<nat>, start: nat)
    requires Scanned(es, n, sources, internal, start) && start < n && start !in internal
    ensures forall v: nat :: v < start + 1 ==> (v in sources + [start] <==> UnreachedBefore(es, sources + [start], v))
  {
    var t := sources + [start];
    forall v: nat | v < start + 1
      ensures v in t <==> UnreachedBefore(es, t, v)
    {
      UnreachedBeforeAdd(es, sources, start, v);
      if v == start {
        assert !ReachedBy(es, sources, start);
        assert t[|sources|] == start;
      } else {
        assert v in t <==> v in sources;
      }
    }
  }

  /** A node some earlier source reaches is passed over. */
  lemma SkipVisited(es: seq<Edge>, n: nat, sources: seq<nat>, internal: set<nat>, start: nat)
    requires Scanned(es, n, sources, internal, start) && start in internal
    ensures Scanned(es, n, sources, internal, start + 1)
  {
    assert ReachedBy(es, sources, start);
    var i :| 0 <= i < |sources| && Reaches(es, sources[i], {start});
    assert start !in sources;
  }

  /** The sources: every node, in index order, that no search from an earlier source has visited; each
      new source starts a search of its own. Every node is reached from some source. */
  method GetSources(es: seq<Edge>, n: nat) returns (sources: seq<nat>)
    requires EdgesWithin(es, n)
    ensures Increasing(sources) && forall i :: 0 <= i < |sources| ==> sources[i] < n
    ensures forall v: nat :: v in sources <==> v < n && UnreachedBefore(es, sources, v)
    ensures forall v: nat :: v < n ==> ReachedBy(es, sources, v)
  {
    var internal: set<nat> := {};
    sources := [];
    for start := 0 to n
      invariant Scanned(es, n, sources, internal, start)
    {
      if start !in internal {
        var path := DfsFrom(es, n, start);
        AddSource(es, n, sources, internal, start, path);
        internal := Visited(internal, start, path);
        sources := sources + [start];
      } else {
        SkipVisited(es, n, sources, internal, start);
      }
    }
  }

  /** A node reached from another node has an edge into it. */
  lemma ReachedHasEdgeInto(es: seq<Edge>, u: nat, v: nat)
    requires u != v && Reaches(es, u, {v})
    ensures exists i :: 0 <= i < |es| && es[i].dst == v
  {
    var p :| IsPath(es, p) && p[0] == u && p[|p| - 1] in {v};
    assert HasEdge(es, p[|p| - 2], p[|p| - 1]);
  }

  /** A node no edge enters is a source. */
  lemma UnenteredIsSource(es: seq<Edge>, sources: seq<nat>, v: nat)
    requires forall i :: 0 <= i < |es| ==> es[i].dst != v
    ensures UnreachedBefore(es, sources, v)
  {
    forall i | 0 <= i < |sources| && sources[i] < v
      ensures !Reaches(es, sources[i], {v})
    {
      if Reaches(es, sources[i], {v}) {
        ReachedHasEdgeInto(es, sources[i], v);
      }
    }
  }

  // ---- the forward pass, as a function of the state ----

  /** The state of a forward pass: node values, the result vector, the queue and the visited nodes. */
  datatype Pass = Pass(values: seq<real>, res: seq<real>, queue: seq<nat>, visited: set<nat>)

  /** Queued and visited nodes are node indices. */
  predicate Fits(p: Pass) {
    && (forall i :: 0 <= i < |p.queue| ==> p.queue[i] < |p.values|)
    && (forall v :: v in p.visited ==> v < |p.values|)
  }

  /** The target of `e` gains `x` times the edge weight. */
  function Gain(values: seq<real>, e: Edge, x: real): (r: seq<real>)
    requires e.dst < |values|
    ensures |r| == |values| && r[e.dst] == values[e.dst] + NeuralSystems.Signal(e.w, x)
    ensures forall v :: 0 <= v < |r| && v != e.dst ==> r[v] == values[v]
  {
    values[e.dst := values[e.dst] + NeuralSystems.Signal(e.w, x)]
  }

  /** One edge leaving a node: its target gains `x` times the edge weight, and a target not visited
      before is marked visited and queued. */
  function SpreadOne(p: Pass, x: real, e: Edge): (r: Pass)
    requires Fits(p) && e.dst < |p.values|
    ensures Fits(r) && |r.values| == |p.values| && r.res == p.res
    ensures p.visited <= r.visited && |r.queue| >= |p.queue|
    ensures |r.queue| - |p.queue| == |r.visited| - |p.visited|
    ensures forall v :: 0 <= v < |r.values| && v != e.dst ==> r.values[v] == p.values[v]
  {
    var values := Gain(p.values, e, x);
    if e.dst in p.visited then Pass(values, p.res, p.queue, p.visited)
    else Pass(values, p.res, p.queue + [e.dst], p.visited + {e.dst})
  }

  /** The edges leaving one node, in turn. */
  function Spread(p: Pass, x: real, outs: seq<Edge>): (r: Pass)
    requires Fits(p) && forall j :: 0 <= j < |outs| ==> outs[j].dst < |p.values|
    ensures Fits(r) && |r.values| == |p.values| && r.res == p.res
    ensures p.visited <= r.visited && |r.queue| >= |p.queue|
    ensures |r.queue| - |p.queue| == |r.visited| - |p.visited|
    decreases |outs|
  {
    if |outs| == 0 then p else Spread(SpreadOne(p, x, outs[0]), x, outs[1..])
  }

  /** What the forward pass needs of its state and graph. */
  predicate Runnable(p: Pass, es: seq<Edge>, shape: NsShape) {
    Fits(p) && |p.values| == shape.NNeurons() && |p.res| == shape.output && EdgesWithin(es, |p.values|)
  }

  /** One node off the front of the queue. An output node puts its squashed value into the result and
      stops there; any other node, unless it is a source, is squashed and reset to 0, and then spreads
      its value along its edges. */
  function Step(p: Pass, es: seq<Edge>, sources: seq<nat>, shape: NsShape, tanh: real -> real): (r: Pass)
    requires Runnable(p, es, shape) && |p.queue| > 0
    ensures Runnable(r, es, shape)
    ensures p.visited <= r.visited && |r.queue| + 1 >= |p.queue|
    ensures |r.queue| + 1 - |p.queue| == |r.visited| - |p.visited|
  {
    var node := p.queue[0];
    var rest := p.queue[1..];
    var x := p.values[node];
    var outStart := shape.input + shape.hidden;
    if outStart <= node < outStart + shape.output then
      Pass(p.values, p.res[node - outStart := tanh(x)], rest, p.visited)
    else
      var cleared := node !in sources;
      var values := if cleared then p.values[node := 0.0] else p.values;
      var out := if cleared then tanh(x) else x;
      var outs := OutEdges(es, node);
      assert forall j :: 0 <= j < |outs| ==> outs[j].dst < |p.values| by {
        forall j | 0 <= j < |outs| ensures outs[j].dst < |p.values| {
          var i :| 0 <= i < |es| && es[i] == outs[j];
        }
      }
      Spread(Pass(values, p.res, rest, p.visited), out, outs)
  }

  /** Steps until the queue is empty. Each step visits a new node or shortens the queue. */
  function Drain(p: Pass, es: seq<Edge>, sources: seq<nat>, shape: NsShape, tanh: real -> real): (r: Pass)
    requires Runnable(p, es, shape)
    ensures Runnable(r, es, shape) && |r.queue| == 0
    decreases |p.values| - |p.visited|, |p.queue|
  {
    if |p.queue| == 0 then p
    else
      var q := Step(p, es, sources, shape, tanh);
      BoundedSetSize(p.visited, |p.values|);
      BoundedSetSize(q.visited, |q.values|);
      Drain(q, es, sources, shape, tanh)
  }

  /** The values before the walk: the first `k` nodes take the inputs. */
  function SetInputs(values: seq<real>, input: seq<real>, k: nat): (r: seq<real>)
    requires k <= |input| && k <= |values|
    ensures |r| == |values|
    ensures forall v :: 0 <= v < |r| ==> r[v] == if v < k then input[v] else values[v]
  {
    input[..k] + values[k..]
  }

  /** A source no edge enters keeps its value while the edges of one node are spread. */
  lemma {:induction false} SpreadKeeps(p: Pass, x: real, outs: seq<Edge>, v: nat)
    requires Fits(p) && forall j :: 0 <= j < |outs| ==> outs[j].dst < |p.values|
    requires v < |p.values| && forall j :: 0 <= j < |outs| ==> outs[j].dst != v
    ensures Spread(p, x, outs).values[v] == p.values[v]
    decreases |outs|
  {
    if |outs| > 0 {
      SpreadKeeps(SpreadOne(p, x, outs[0]), x, outs[1..], v);
    }
  }

  /** A source no edge enters and outside the outputs keeps its value through the forward pass. */
  lemma {:induction false} DrainKeeps(p: Pass, es: seq<Edge>, sources: seq<nat>, shape: NsShape, tanh: real -> real, v: nat)
    requires Runnable(p, es, shape)
    requires v < shape.input + shape.hidden && v in sources
    requires forall i :: 0 <= i < |es| ==> es[i].dst != v
    ensures Drain(p, es, sources, shape, tanh).values[v] == p.values[v]
    decreases |p.values| - |p.visited|, |p.queue|
  {
    if |p.queue| > 0 {
      var q := Step(p, es, sources, shape, tanh);
      var node := p.queue[0];
      var outStart := shape.input + shape.hidden;
      if !(outStart <= node < outStart + shape.output) {
        var cleared := node !in sources;
        var values := if cleared then p.values[node := 0.0] else p.values;
        var out := if cleared then tanh(p.values[node]) else p.values[node];
        var outs := OutEdges(es, node);
        forall j | 0 <= j < |outs| ensures outs[j].dst < |p.values| && outs[j].dst != v {
          var i :| 0 <= i < |es| && es[i] == outs[j];
        }
        SpreadKeeps(Pass(values, p.res, p.queue[1..], p.visited), out, outs, v);
      }
      BoundedSetSize(p.visited, |p.values|);
      BoundedSetSize(q.visited, |q.values|);
      DrainKeeps(q, es, sources, shape, tanh, v);
    }
  }

  // ---- the unit tests of the source, as lemmas ----

  /** The edges of the source test with shape (3, 3, 2), renumbered: inputs 0-2, hidden 3-5, outputs 6-7. */
  const SOURCES_TEST_EDGES: seq<Edge> := [
    Edge(0, 3, 1.0), Edge(1, 3, 1.0), Edge(0, 6, 1.0), Edge(2, 6, 1.0),
    Edge(4, 4, 1.0), Edge(4, 3, 1.0), Edge(3, 6, 1.0), Edge(5, 7, 1.0)]

  /** An edge gives a path of one step. */
  lemma EdgeReaches(es: seq<Edge>, u: nat, v: nat)
    requires HasEdge(es, u, v)
    ensures Reaches(es, u, {v})
  {
    ReachesTrivially(es, v, {v});
    ReachesStep(es, u, v, {v});
  }

  /** An increasing sequence ends at its largest element. */
  lemma IncreasingEnds(s: seq<nat>, k: nat)
    requires Increasing(s) && 0 < k <= |s| && forall i :: 0 <= i < |s| ==> s[i] <= s[k - 1]
    ensures |s| == k
  {
    assert s[k - 1] < s[|s| - 1] || k == |s|;
  }

  /** A node reached from an earlier source is not a source. */
  lemma ReachedNotSource(es: seq<Edge>, sources: seq<nat>, s: nat, v: nat)
    requires s in sources && s < v && Reaches(es, s, {v})
    ensures !UnreachedBefore(es, sources, v)
  {
    var i :| 0 <= i < |sources| && sources[i] == s;
  }

  /** The smallest elements of an increasing sequence, read off its element set. */
  lemma IncreasingFront(s: seq<nat>, k: nat, x: nat)
    requires Increasing(s) && k <= |s| && x in s
    requires forall i :: 0 <= i < k ==> s[i] < x
    requires forall i :: k <= i < |s| ==> s[i] >= x
    ensures k < |s| && s[k] == x
  {
  }

  /** The reachability facts the sources test rests on. */
  lemma SourcesTestGraph(es: seq<Edge>)
    requires forall e :: e in es <==> e in SOURCES_TEST_EDGES
    ensures EdgesWithin(es, 8)
    ensures forall i :: 0 <= i < |es| ==> es[i].dst !in {0, 1, 2, 5}
    ensures Reaches(es, 0, {3}) && Reaches(es, 0, {6}) && Reaches(es, 5, {7})
    ensures !Reaches(es, 0, {4}) && !Reaches(es, 1, {4}) && !Reaches(es, 2, {4})
  {
    var t := SOURCES_TEST_EDGES;
    forall i | 0 <= i < |es| ensures es[i].src < 8 && es[i].dst < 8 && es[i].dst !in {0, 1, 2, 5} {
      assert es[i] in t;
    }
    assert HasEdge(es, 0, 3) by { assert t[0] in es; }
    assert HasEdge(es, 0, 6) by { assert t[2] in es; }
    assert HasEdge(es, 5, 7) by { assert t[7] in es; }
    EdgeReaches(es, 0, 3);
    EdgeReaches(es, 0, 6);
    EdgeReaches(es, 5, 7);
    var closed := {0, 1, 2, 3, 6};
    forall i | 0 <= i < |es| && es[i].src in closed
      ensures es[i].dst in closed
    {
      assert es[i] in t;
    }
    ForwardClosedAvoids(es, closed, {4}, 0);
    ForwardClosedAvoids(es, closed, {4}, 1);
    ForwardClosedAvoids(es, closed, {4}, 2);
  }

  /** On that graph the source characterisation admits exactly the nodes 0, 1, 2, 4 and 5. */
  lemma SourcesTestMembers(es: seq<Edge>, sources: seq<nat>)
    requires forall i :: 0 <= i < |es| ==> es[i].dst !in {0, 1, 2, 5}
    requires Reaches(es, 0, {3}) && Reaches(es, 0, {6}) && Reaches(es, 5, {7})
    requires !Reaches(es, 0, {4}) && !Reaches(es, 1, {4}) && !Reaches(es, 2, {4})
    requires forall v: nat :: v in sources <==> v < 8 && UnreachedBefore(es, sources, v)
    ensures forall v: nat :: v in sources <==> v in {0, 1, 2, 4, 5}
  {
    forall v: nat | v in {0, 1, 2, 5}
      ensures v in sources
    {
      UnenteredIsSource(es, sources, v);
    }
    ReachedNotSource(es, sources, 0, 3);
    ReachedNotSource(es, sources, 0, 6);
    ReachedNotSource(es, sources, 5, 7);
    assert UnreachedBefore(es, sources, 4) by {
      forall i | 0 <= i < |sources| && sources[i] < 4
        ensures !Reaches(es, sources[i], {4})
      {
        assert sources[i] in {0, 1, 2};
      }
    }
  }

  /** An increasing sequence holding exactly 0, 1, 2, 4 and 5 lists them in that order. */
  lemma SourcesTestOrder(sources: seq<nat>)
    requires Increasing(sources)
    requires forall v: nat :: v in sources <==> v in {0, 1, 2, 4, 5}
    ensures sources == [0, 1, 2, 4, 5]
  {
    forall i | 0 <= i < |sources| ensures sources[i] in {0, 1, 2, 4, 5} {
      assert sources[i] in sources;
    }
    IncreasingFront(sources, 0, 0);
    IncreasingFront(sources, 1, 1);
    IncreasingFront(sources, 2, 2);
    IncreasingFront(sources, 3, 4);
    IncreasingFront(sources, 4, 5);
    IncreasingEnds(sources, 5);
  }

  /** The sources test: whatever the order of the connections, the sources are 0, 1, 2, 4 and 5. */
  method SourcesTest(es: seq<Edge>) returns (sources: seq<nat>)
    requires forall e :: e in es <==> e in SOURCES_TEST_EDGES
    ensures sources == [0, 1, 2, 4, 5]
  {
    SourcesTestGraph(es);
    sources := GetSources(es, 8);
    SourcesTestMembers(es, sources);
    SourcesTestOrder(sources);
  }

  /** The graph of the forward test with shape (2, 1, 1): inputs 0 and 1 feed hidden node 2, which
      feeds output 3 with weight 0.3. */
  const FORWARD_TEST_EDGES: seq<Edge> := [Edge(0, 2, 1.0), Edge(1, 2, 1.0), Edge(2, 3, 0.3)]

  lemma {:induction false} ForwardTestOutEdges()
    ensures OutEdges(FORWARD_TEST_EDGES, 0) == [Edge(0, 2, 1.0)]
    ensures OutEdges(FORWARD_TEST_EDGES, 1) == [Edge(1, 2, 1.0)]
    ensures OutEdges(FORWARD_TEST_EDGES, 2) == [Edge(2, 3, 0.3)]
  {
    var es := FORWARD_TEST_EDGES;
    var e1 := [Edge(0, 2, 1.0)];
    var e2 := [Edge(0, 2, 1.0), Edge(1, 2, 1.0)];
    assert e1[..0] == [] && e2[..1] == e1 && es[..2] == e2;
    forall v: nat | v <= 2
      ensures OutEdges(es, v) == if v == 0 then [Edge(0, 2, 1.0)] else if v == 1 then [Edge(1, 2, 1.0)] else [Edge(2, 3, 0.3)]
    {
      assert OutEdges(e1[..0], v) == [];
      assert OutEdges(e1, v) == if v == 0 then e1 else [];
      assert OutEdges(e2, v) == if v == 0 then e1 else if v == 1 then [Edge(1, 2, 1.0)] else [];
    }
  }

  lemma SpreadSingle(p: Pass, x: real, e: Edge)
    requires Fits(p) && e.dst < |p.values|
    ensures Spread(p, x, [e]) == SpreadOne(p, x, e)
  {
    assert [e][1..] == [];
  }

  lemma {:induction false} ForwardTestFirstStep(tanh: real -> real)
    ensures var p1 := Pass([0.5, 0.8, 0.5, 0.0], [0.0], [1, 2], {2});
      && Runnable(p1, FORWARD_TEST_EDGES, NsShape(2, 1, 1))
      && Step(Pass([0.5, 0.8, 0.0, 0.0], [0.0], [0, 1], {}), FORWARD_TEST_EDGES, [0, 1], NsShape(2, 1, 1), tanh) == p1
  {
    ForwardTestOutEdges();
    var p1 := Pass([0.5, 0.8, 0.5, 0.0], [0.0], [1, 2], {2});
    assert [0, 1][1..] == [1];
    assert SpreadOne(Pass([0.5, 0.8, 0.0, 0.0], [0.0], [1], {}), 0.5, Edge(0, 2, 1.0)) == p1;
    SpreadSingle(Pass([0.5, 0.8, 0.0, 0.0], [0.0], [1], {}), 0.5, Edge(0, 2, 1.0));
  }

  lemma {:induction false} ForwardTestSecondStep(tanh: real -> real)
    ensures var p1 := Pass([0.5, 0.8, 0.5, 0.0], [0.0], [1, 2], {2});
      && Runnable(p1, FORWARD_TEST_EDGES, NsShape(2, 1, 1))
      && Step(p1, FORWARD_TEST_EDGES, [0, 1], NsShape(2, 1, 1), tanh) == Pass([0.5, 0.8, 1.3, 0.0], [0.0], [2], {2})
  {
    ForwardTestOutEdges();
    var p1 := Pass([0.5, 0.8, 0.5, 0.0], [0.0], [1, 2], {2});
    assert p1.queue[1..] == [2];
    assert SpreadOne(Pass(p1.values, [0.0], [2], {2}), 0.8, Edge(1, 2, 1.0)) == Pass([0.5, 0.8, 1.3, 0.0], [0.0], [2], {2});
    SpreadSingle(Pass(p1.values, [0.0], [2], {2}), 0.8, Edge(1, 2, 1.0));
  }

  lemma {:induction false} ForwardTestThirdStep(tanh: real -> real)
    ensures var shape := NsShape(2, 1, 1);
      var p2 := Pass([0.5, 0.8, 1.3, 0.0], [0.0], [2], {2});
      var p3 := Pass([0.5, 0.8, 0.0, 0.3 * tanh(1.3)], [0.0], [3], {2, 3});
      && Runnable(p2, FORWARD_TEST_EDGES, shape) && Runnable(p3, FORWARD_TEST_EDGES, shape)
      && Step(p2, FORWARD_TEST_EDGES, [0, 1], shape, tanh) == p3
  {
    ForwardTestOutEdges();
    var p3 := Pass([0.5, 0.8, 0.0, 0.3 * tanh(1.3)], [0.0], [3], {2, 3});
    assert [2][1..] == [];
    assert SpreadOne(Pass([0.5, 0.8, 0.0, 0.0], [0.0], [], {2}), tanh(1.3), Edge(2, 3, 0.3)) == p3;
    SpreadSingle(Pass([0.5, 0.8, 0.0, 0.0], [0.0], [], {2}), tanh(1.3), Edge(2, 3, 0.3));
    var p2 := Pass([0.5, 0.8, 1.3, 0.0], [0.0], [2], {2});
    assert 2 !in [0, 1];
    assert p2.values[2 := 0.0] == [0.5, 0.8, 0.0, 0.0];
  }

  lemma {:induction false} ForwardTestLastStep(tanh: real -> real)
    ensures var shape := NsShape(2, 1, 1);
      var p3 := Pass([0.5, 0.8, 0.0, 0.3 * tanh(1.3)], [0.0], [3], {2, 3});
      && Runnable(p3, FORWARD_TEST_EDGES, shape)
      && Step(p3, FORWARD_TEST_EDGES, [0, 1], shape, tanh) == Pass(p3.values, [tanh(0.3 * tanh(1.3))], [], {2, 3})
  {
    assert [3][1..] == [];
  }

  lemma {:induction false} ForwardTestTail(tanh: real -> real)
    ensures var p2 := Pass([0.5, 0.8, 1.3, 0.0], [0.0], [2], {2});
      && Runnable(p2, FORWARD_TEST_EDGES, NsShape(2, 1, 1))
      && Drain(p2, FORWARD_TEST_EDGES, [0, 1], NsShape(2, 1, 1), tanh).res == [tanh(0.3 * tanh(1.3))]
  {
    var es := FORWARD_TEST_EDGES;
    var shape := NsShape(2, 1, 1);
    ForwardTestThirdStep(tanh);
    ForwardTestLastStep(tanh);
    var p2 := Pass([0.5, 0.8, 1.3, 0.0], [0.0], [2], {2});
    var p3 := Pass([0.5, 0.8, 0.0, 0.3 * tanh(1.3)], [0.0], [3], {2, 3});
    var p4 := Pass(p3.values, [tanh(0.3 * tanh(1.3))], [], {2, 3});
    assert Drain(p3, es, [0, 1], shape, tanh) == Drain(p4, es, [0, 1], shape, tanh) == p4;
  }

  /** The forward test: with sources 0 and 1 and inputs 0.5 and 0.8 the output is
      tanh(0.3 * tanh(0.5 + 0.8)). */
  lemma {:induction false} ForwardTest(tanh: real -> real)
    ensures var p := Pass(SetInputs([0.0, 0.0, 0.0, 0.0], [0.5, 0.8], 2), [0.0], [0, 1], {});
      && Runnable(p, FORWARD_TEST_EDGES, NsShape(2, 1, 1))
      && Drain(p, FORWARD_TEST_EDGES, [0, 1], NsShape(2, 1, 1), tanh).res == [tanh(0.3 * tanh(1.3))]
  {
    var es := FORWARD_TEST_EDGES;
    var shape := NsShape(2, 1, 1);
    var p0 := Pass([0.5, 0.8, 0.0, 0.0], [0.0], [0, 1], {});
    var p1 := Pass([0.5, 0.8, 0.5, 0.0], [0.0], [1, 2], {2});
    var p2 := Pass([0.5, 0.8, 1.3, 0.0], [0.0], [2], {2});
    assert Pass(SetInputs([0.0, 0.0, 0.0, 0.0], [0.5, 0.8], 2), [0.0], [0, 1], {}) == p0;
    assert Runnable(p0, es, shape) by {
      assert Fits(p0);
    }
    ForwardTestFirstStep(tanh);
    ForwardTestSecondStep(tanh);
    ForwardTestTail(tanh);
    DrainTwoSteps(p0, p1, p2, es, [0, 1], shape, tanh);
  }

  /** Two steps that lead from `p0` through `p1` to `p2` leave the drained state unchanged. */
  lemma DrainTwoSteps(p0: Pass, p1: Pass, p2: Pass, es: seq<Edge>, sources: seq<nat>, shape: NsShape, tanh: real -> real)
    requires Runnable(p0, es, shape) && |p0.queue| > 0 && Step(p0, es, sources, shape, tanh) == p1
    requires Runnable(p1, es, shape) && |p1.queue| > 0 && Step(p1, es, sources, shape, tanh) == p2
    ensures Runnable(p2, es, shape)
    ensures Drain(p0, es, sources, shape, tanh) == Drain(p2, es, sources, shape, tanh)
  {
  }

  /** The edges from `j` on all lead to nodes below `n`. */
  predicate TargetsAfter(outs: seq<Edge>, j: nat, n: nat)
    requires j <= |outs|
  {
    forall k :: 0 <= k < |outs[j..]| ==> outs[j..][k].dst < n
  }

  lemma TargetsSlice(outs: seq<Edge>, j: nat, n: nat)
    requires j <= |outs| && forall k :: 0 <= k < |outs| ==> outs[k].dst < n
    ensures TargetsAfter(outs, j, n)
  {
    forall k | 0 <= k < |outs[j..]|
      ensures outs[j..][k].dst < n
    {
      assert outs[j..][k] == outs[j + k];
    }
  }

  /** Spreading along the edges from `j` on is spreading along edge `j`, then along the rest. */
  lemma SpreadFrom(p: Pass, x: real, outs: seq<Edge>, j: nat)
    requires j < |outs| && Fits(p) && forall k :: 0 <= k < |outs| ==> outs[k].dst < |p.values|
    ensures TargetsAfter(outs, j, |p.values|) && TargetsAfter(outs, j + 1, |p.values|)
    ensures Spread(p, x, outs[j..]) == Spread(SpreadOne(p, x, outs[j]), x, outs[j + 1..])
  {
    TargetsSlice(outs, j, |p.values|);
    TargetsSlice(outs, j + 1, |p.values|);
    assert outs[j..][0] == outs[j] && outs[j..][1..] == outs[j + 1..];
  }

  // ---- the neural system object ----

  class NeuralSystem {
    const outSize: nat
    const shape: NsShape
    /** The value of every node of the graph. */
    var values: seq<real>
    const edges: seq<Edge>
    const sources: seq<nat>

    ghost predicate Valid()
      reads this
    {
      && |values| == shape.NNeurons() && outSize == shape.output
      && EdgesWithin(edges, |values|)
      && (forall i :: 0 <= i < |edges| ==> edges[i].dst >= shape.input)
      && (forall i :: 0 <= i < |sources| ==> sources[i] < |values|)
      && (forall v: nat :: v < shape.input ==> v in sources)
    }

    /** Decodes the genome, builds the graph, finds the sources and starts every source at 0.5. */
    constructor (genome: seq<Gene>, shape: NsShape)
      requires forall i :: 0 <= i < |genome| ==> Decodable(genome[i], shape)
      ensures Valid() && this.shape == shape
      ensures |edges| == |genome| && forall i :: 0 <= i < |genome| ==> edges[i] == ToEdge(GeneToConn(genome[i], shape))
      ensures Increasing(sources)
      ensures forall v: nat :: v in sources <==> v < shape.NNeurons() && UnreachedBefore(edges, sources, v)
      ensures forall v: nat :: v < shape.NNeurons() ==> ReachedBy(edges, sources, v)
      ensures forall v :: 0 <= v < |values| ==> values[v] == if v in sources then 0.5 else 0.0
    {
      var connections: seq<SensorConnection> := [];
      for i := 0 to |genome|
        invariant |connections| == i && forall j :: 0 <= j < i ==> connections[j] == GeneToConn(genome[j], shape)
      {
        connections := connections + [GeneToConn(genome[i], shape)];
      }
      var n := shape.NNeurons();
      var values, edges := GetNnGraph(connections, n);
      var sources := GetSources(edges, n);
      forall v: nat | v < shape.input
        ensures v in sources
      {
        UnenteredIsSource(edges, sources, v);
      }
      this.outSize := shape.output;
      this.shape := shape;
      this.values := values;
      this.edges := edges;
      this.sources := sources;
      new;
      InitSources();
    }

    /** Sets every source to 0.5. */
    method InitSources()
      requires Valid()
      modifies this
      ensures Valid() && |values| == |old(values)|
      ensures forall v :: 0 <= v < |values| ==> values[v] == if v in sources then 0.5 else old(values)[v]
    {
      for k := 0 to |sources|
        invariant Valid() && |values| == |old(values)|
        invariant forall v :: 0 <= v < |values| ==> values[v] == if v in sources[..k] then 0.5 else old(values)[v]
      {
        assert sources[..k + 1] == sources[..k] + [sources[k]];
        values := values[sources[k] := 0.5];
      }
      assert sources[..|sources|] == sources;
    }

    method SetInputsInPlace(input: seq<real>)
      requires Valid() && |input| >= shape.input
      modifies this
      ensures Valid() && values == SetInputs(old(values), input, shape.input)
    {
      for i := 0 to shape.input
        invariant Valid() && |values| == |old(values)|
        invariant forall v :: 0 <= v < |values| ==> values[v] == if v < i then input[v] else old(values)[v]
      {
        values := values[i := input[i]];
      }
    }

    /** The walk over the edges leaving one node, on the values in place. */
    method SpreadInPlace(x: real, outs: seq<Edge>, ghost res: seq<real>, queue: seq<nat>, visited: set<nat>)
      returns (queue': seq<nat>, visited': set<nat>)
      requires Fits(Pass(values, res, queue, visited)) && forall j :: 0 <= j < |outs| ==> outs[j].dst < |values|
      modifies this
      ensures Pass(values, res, queue', visited') == Spread(Pass(old(values), res, queue, visited), x, outs)
    {
      queue', visited' := queue, visited;
      ghost var start := Pass(values, res, queue, visited);
      TargetsSlice(outs, 0, |values|);
      assert outs[0..] == outs;
      for j := 0 to |outs|
        invariant Fits(Pass(values, res, queue', visited')) && |values| == |old(values)|
        invariant TargetsAfter(outs, j, |values|)
        invariant Spread(Pass(values, res, queue', visited'), x, outs[j..]) == Spread(start, x, outs)
      {
        ghost var before := Pass(values, res, queue', visited');
        var e := outs[j];
        SpreadFrom(before, x, outs, j);
        ghost var after := SpreadOne(before, x, e);
        values := Gain(values, e, x);
        if e.dst !in visited' {
          visited' := visited' + {e.dst};
          queue' := queue' + [e.dst];
        }
        assert queue' == after.queue && visited' == after.visited;
      }
    }

    /** One node off the front of the queue, on the values in place. */
    method StepInPlace(res: seq<real>, queue: seq<nat>, visited: set<nat>, tanh: real -> real)
      returns (res': seq<real>, queue': seq<nat>, visited': set<nat>)
      requires Valid() && Runnable(Pass(values, res, queue, visited), edges, shape) && |queue| > 0
      modifies this
      ensures Valid()
      ensures Pass(values, res', queue', visited') == Step(Pass(old(values), res, queue, visited), edges, sources, shape, tanh)
    {
      var node := queue[0];
      var nodeOut := values[node];
      var outStart := shape.input + shape.hidden;
      var outEnd := outStart + shape.output;
      if outStart <= node < outEnd {
        res', queue', visited' := res[node - outStart := tanh(nodeOut)], queue[1..], visited;
        return;
      }
      if node !in sources {
        values := values[node := 0.0];
        nodeOut := tanh(nodeOut);
      }
      var outs := OutEdges(edges, node);
      forall j | 0 <= j < |outs| ensures outs[j].dst < |values| {
        var i :| 0 <= i < |edges| && edges[i] == outs[j];
      }
      queue', visited' := SpreadInPlace(nodeOut, outs, res, queue[1..], visited);
      res' := res;
    }

    /** One forward pass: the inputs are written into the input nodes, the sources are queued, and
        nodes are taken off the queue until it is empty. The result holds the squashed value of each
        output node reached; an output node never reached leaves 0. */
    method Forward(input: seq<real>, tanh: real -> real) returns (res: seq<real>)
      requires Valid() && |input| >= shape.input
      modifies this
      ensures Valid()
      ensures var r := Drain(Pass(SetInputs(old(values), input, shape.input), seq(outSize, _ => 0.0), sources, {}),
                             edges, sources, shape, tanh);
        values == r.values && res == r.res
      ensures |res| == outSize
      ensures forall i :: 0 <= i < shape.input ==> values[i] == input[i]
    {
      res := seq(outSize, _ => 0.0);
      SetInputsInPlace(input);
      var queue := sources;
      var visited: set<nat> := {};
      ghost var start := Pass(values, res, queue, visited);
      while |queue| > 0
        invariant Valid() && Runnable(Pass(values, res, queue, visited), edges, shape)
        invariant Drain(Pass(values, res, queue, visited), edges, sources, shape, tanh)
          == Drain(start, edges, sources, shape, tanh)
        decreases |values| - |visited|, |queue|
      {
        BoundedSetSize(visited, |values|);
        res, queue, visited := StepInPlace(res, queue, visited, tanh);
        BoundedSetSize(visited, |values|);
      }
      forall i | 0 <= i < shape.input
        ensures values[i] == input[i]
      {
        forall k | 0 <= k < |edges| ensures edges[k].dst != i { }
        DrainKeeps(start, edges, sources, shape, tanh, i);
      }
    }
  }
}
