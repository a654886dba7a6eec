/** The unit tests of the current neural system (src/components/neural_system.rs:240-450), as lemmas
    and methods: the structure each test graph builds, and the outputs of its forward passes, stated
    symbolically in the activation function. */
module NeuralSystemTests {
  import opened Graphs
  import opened Neurons
  import opened Activations
  import opened Connections
  import opened NeuralSystems

  // ---- facts the tests share ----

  /** Tanh is positive on positive arguments; the tests rely on it to open the firing gates. */
  ghost predicate PositiveOnPositive(act: ActivationFn) {
    forall x: real :: x > 0.0 ==> act(Tanh, x) > 0.0
  }

  /** When every selected edge out of `v` ends at `d`, propagation adds their summed weight times `x`
      to `d` and leaves every other neuron alone. */
  lemma AddAlongInto(st: seq<Neuron>, es: seq<Edge>, v: nat, sel: EdgeSelection, x: real, d: nat)
    requires EdgesWithin(es, |st|) && d < |st|
    requires forall i :: 0 <= i < |es| && Selected(sel, es[i], v) ==> es[i].dst == d
    ensures AddAlong(st, es, v, sel, x) == st[d := st[d].(value := st[d].value + Signal(WeightInto(es, v, sel, d), x))]
  {
    var r := AddAlong(st, es, v, sel, x);
    var expected := st[d := st[d].(value := st[d].value + Signal(WeightInto(es, v, sel, d), x))];
    forall j | 0 <= j < |st| ensures r[j] == expected[j] {
      if j == d {
        AddAlongValue(st, es, v, sel, x, j);
      } else {
        AddAlongUntargeted(st, es, v, sel, x, j);
      }
    }
  }

  /** Propagation along no selected edge changes nothing. */
  lemma AddAlongNowhere(st: seq<Neuron>, es: seq<Edge>, v: nat, sel: EdgeSelection, x: real)
    requires EdgesWithin(es, |st|)
    requires forall i :: 0 <= i < |es| ==> !Selected(sel, es[i], v)
    ensures AddAlong(st, es, v, sel, x) == st
  {
    forall j | 0 <= j < |st| ensures AddAlong(st, es, v, sel, x)[j] == st[j] {
      AddAlongUntargeted(st, es, v, sel, x, j);
    }
  }

  /** A sequence without repetitions has as many elements as its element set. */
  lemma {:induction false} DistinctCard(s: seq<nat>)
    requires Distinct(s)
    ensures |SetOf(s)| == |s|
  {
    if |s| > 0 {
      var init := s[..|s| - 1];
      assert Distinct(init);
      DistinctCard(init);
      assert SetOf(s) == SetOf(init) + {s[|s| - 1]};
      assert s[|s| - 1] !in SetOf(init);
    }
  }

  /** In a dependency order without repetitions, the source of an edge stands before its target. */
  lemma OrderedBefore(es: seq<Edge>, order: seq<nat>, i: nat, a: nat, b: nat)
    requires Ordered(es, order) && Distinct(order)
    requires 0 <= i < |es| && a < |order| && b < |order|
    requires es[i].src == order[a] && es[i].dst == order[b] && es[i].src != es[i].dst
    ensures a < b
  {
    var q :| 0 <= q < |order[..b]| && order[..b][q] == order[a];
    assert order[q] == order[a];
  }

  /** Filtering by a node set that holds every end keeps every edge. */
  lemma {:induction false} FilterKeepsAll(es: seq<Edge>, keep: set<nat>)
    requires forall i :: 0 <= i < |es| ==> es[i].src in keep && es[i].dst in keep
    ensures FilterEdges(es, keep) == es
  {
    if |es| > 0 {
      var init := es[..|es| - 1];
      assert forall i :: 0 <= i < |init| ==> init[i] == es[i];
      FilterKeepsAll(init, keep);
      assert init + [es[|es| - 1]] == es;
    }
  }

  /** Without a memory flag there are no memory nodes. */
  lemma NoMemory(neurons: seq<(bool, Neuron)>, input: nat)
    requires forall i :: 0 <= i < |neurons| ==> !neurons[i].0
    ensures MemoryNodes(neurons, input) == {}
  {
  }

  /** An edge is a path of one step. */
  lemma OneStep(es: seq<Edge>, i: nat)
    requires 0 <= i < |es|
    ensures Reaches(es, es[i].src, {es[i].dst})
  {
    ReachesTrivially(es, es[i].dst, {es[i].dst});
    assert HasEdge(es, es[i].src, es[i].dst);
    ReachesStep(es, es[i].src, es[i].dst, {es[i].dst});
  }

  // ---- test_self_connected_source: a hidden source with three self-loops ----

  /** Shape (1, 1, 1): input 0, hidden 1, output 2. */
  const SELF_SOURCE_SHAPE := NsShape(1, 1, 1)

  /** One hidden neuron with threshold 0.5, not a memory node. */
  function SelfSourceNeurons(): seq<(bool, Neuron)> {
    [(false, New(0.5, Tanh))]
  }

  /** Three self-loops on the hidden node and an edge from it to the output. */
  function SelfSourceConnections(): seq<Connection> {
    [Renumber(Connection(0.7, Internal, 0, 0), SELF_SOURCE_SHAPE),
     Renumber(Connection(1.0, Internal, 0, 0), SELF_SOURCE_SHAPE),
     Renumber(Connection(0.3, Internal, 0, 0), SELF_SOURCE_SHAPE),
     Renumber(Connection(0.2, Out, 0, 0), SELF_SOURCE_SHAPE)]
  }

  const SELF_SOURCE_EDGES: seq<Edge> := [Edge(1, 1, 0.7), Edge(1, 1, 1.0), Edge(1, 1, 0.3), Edge(1, 2, 0.2)]

  lemma SelfSourceEdges()
    ensures ConnEdges(SelfSourceConnections()) == SELF_SOURCE_EDGES
  {
  }

  /** The test graph: the hidden node reaches the output and the input reaches nothing; the only edge
      between distinct nodes does not close a cycle. */
  lemma SelfSourceGraph()
    ensures var es := SELF_SOURCE_EDGES;
      && EdgesWithin(es, 3) && Acyclic(es)
      && forall x: nat :: x < 3 && Reaches(es, x, OutputNodes(SELF_SOURCE_SHAPE)) <==> x in {1, 2}
  {
    var es := SELF_SOURCE_EDGES;
    assert OutputNodes(SELF_SOURCE_SHAPE) == {2};
    OneStep(es, 3);
    ReachesTrivially(es, 2, {2});
    SinkReachesOnlyItself(es, 0, {2});
    SinkReachesOnlyItself(es, 2, {1});
  }

  /** The only dependency order of nodes 1 and 2 without repetitions is [1, 2]. */
  lemma SelfSourceOrder(nodes: seq<nat>)
    requires Distinct(nodes) && Ordered(SELF_SOURCE_EDGES, nodes)
    requires forall x: nat :: x in nodes <==> x in {1, 2}
    ensures nodes == [1, 2]
  {
    assert SetOf(nodes) == {1, 2};
    DistinctCard(nodes);
    var p1 :| 0 <= p1 < 2 && nodes[p1] == 1;
    var p2 :| 0 <= p2 < 2 && nodes[p2] == 2;
    OrderedBefore(SELF_SOURCE_EDGES, nodes, 3, p1, p2);
  }

  /** With execution order [1, 2] the sources are 0 and 1, the two sources the test counts. */
  lemma SelfSourceSources(nodes: seq<nat>)
    requires nodes == [1, 2] && IsExecutionSet(SELF_SOURCE_EDGES, SELF_SOURCE_SHAPE, nodes)
    ensures SourceNodes(PrunedEdges(SELF_SOURCE_EDGES, nodes, 1), nodes, 1) == {0, 1}
  {
    var es := SELF_SOURCE_EDGES;
    assert EdgesWithin(es, 3);
    assert forall i :: 0 <= i < |es| ==> es[i].src == 1;
    forall v: nat ensures v in SourceNodes(PrunedEdges(es, nodes, 1), nodes, 1) <==> v in {0, 1} {
      SourcesCharacterised(es, SELF_SOURCE_SHAPE, nodes, v);
      assert v == 2 ==> es[3].dst == v && es[3].src != v;
    }
  }

  /** With execution order [1, 2] node 1 alone is self-connected. */
  lemma SelfSourceSelfConnected(nodes: seq<nat>)
    requires nodes == [1, 2] && IsExecutionSet(SELF_SOURCE_EDGES, SELF_SOURCE_SHAPE, nodes)
    ensures SelfConnectedNodes(PrunedEdges(SELF_SOURCE_EDGES, nodes, 1), nodes) == {1}
  {
    var es := SELF_SOURCE_EDGES;
    assert EdgesWithin(es, 3);
    assert forall i :: 0 <= i < |es| ==> es[i].src == 1;
    forall v: nat ensures v in SelfConnectedNodes(PrunedEdges(es, nodes, 1), nodes) <==> v == 1 {
      SelfConnectedCharacterised(es, SELF_SOURCE_SHAPE, nodes, v);
      assert v == 1 ==> es[0].dst == v && es[0].src == v;
    }
  }

  /** Only the output is cleared: the hidden node is a source and not a memory node. */
  lemma SelfSourceCleared(nodes: seq<nat>, sources: set<nat>, clear: set<nat>)
    requires nodes == [1, 2] && sources == {0, 1}
    requires clear == SetOf(nodes) - sources - MemoryNodes(SelfSourceNeurons(), 1)
    ensures clear == {2}
  {
    NoMemory(SelfSourceNeurons(), 1);
    assert SetOf(nodes) == {1, 2};
  }

  /** What `new` builds: execution order [1, 2], every edge kept, sources 0 and 1, node 1
      self-connected and only the output cleared. */
  lemma SelfSourceStructure(s: Structure)
    requires s.shape == SELF_SOURCE_SHAPE
    requires Built(s, ConnEdges(SelfSourceConnections()), MemoryNodes(SelfSourceNeurons(), 1))
    ensures s.nodes == [1, 2] && s.edges == SELF_SOURCE_EDGES
    ensures s.sources == {0, 1} && s.selfConnected == {1} && s.nodesToClear == {2}
  {
    var es := SELF_SOURCE_EDGES;
    SelfSourceEdges();
    SelfSourceGraph();
    SelfSourceOrder(s.nodes);
    FilterKeepsAll(es, KeptNodes(s.nodes, 1));
    SelfSourceSources(s.nodes);
    SelfSourceSelfConnected(s.nodes);
    SelfSourceCleared(s.nodes, s.sources, s.nodesToClear);
  }

  const SELF_SOURCE_STRUCTURE := Structure(SELF_SOURCE_SHAPE, SELF_SOURCE_EDGES, [1, 2], {0, 1}, {1}, {2})

  /** The three self-loops weigh 0.7 + 1 + 0.3 together; the edge to the output weighs 0.2. */
  lemma SelfSourceWeights()
    ensures WeightInto(SELF_SOURCE_EDGES, 1, SelfEdges, 1) == 2.0
    ensures WeightInto(SELF_SOURCE_EDGES, 1, OtherEdges, 2) == 0.2
  {
    var es := SELF_SOURCE_EDGES;
    var e1, e2, e3 := es[..1], es[..2], es[..3];
    assert e1[..0] == [] && e2[..1] == e1 && e3[..2] == e2;
    assert WeightInto(e1, 1, SelfEdges, 1) == 0.7 && WeightInto(e1, 1, OtherEdges, 2) == 0.0;
    assert WeightInto(e2, 1, SelfEdges, 1) == 1.7 && WeightInto(e2, 1, OtherEdges, 2) == 0.0;
    assert WeightInto(e3, 1, SelfEdges, 1) == 2.0 && WeightInto(e3, 1, OtherEdges, 2) == 0.0;
  }

  /** The self-connected node adds its self-loops times its snapshot 0.5 to its value 0.5, fires, and
      sends the result to the output with weight 0.2. */
  lemma SelfSourceFirstStep(act: ActivationFn)
    ensures var st := [Neuron(0.0, 0.0, None), Neuron(0.5, 0.5, Tanh), Neuron(0.0, 0.0, Tanh)];
      var t := act(Tanh, 0.5 + 0.5 * (0.7 + 1.0 + 0.3));
      Step(SELF_SOURCE_STRUCTURE, act, map[1 := 0.5], st, 1)
        == [Neuron(0.0, 0.0, None), Neuron(0.5, t, Tanh), Neuron(0.0, t * 0.2, Tanh)]
  {
    var s := SELF_SOURCE_STRUCTURE;
    var st := [Neuron(0.0, 0.0, None), Neuron(0.5, 0.5, Tanh), Neuron(0.0, 0.0, Tanh)];
    SelfSourceWeights();
    AddAlongInto(st, s.edges, 1, SelfEdges, 0.5, 1);
    var withSelf := st[1 := Neuron(0.5, 1.5, Tanh)];
    var t := act(Tanh, 1.5);
    AddAlongInto(withSelf[1 := Neuron(0.5, t, Tanh)], s.edges, 1, OtherEdges, t, 2);
  }

  /** The output fires and has no edge to propagate along. */
  lemma SelfSourceLastStep(act: ActivationFn, t: real)
    requires t > 0.0 && PositiveOnPositive(act)
    ensures var st := [Neuron(0.0, 0.0, None), Neuron(0.5, t, Tanh), Neuron(0.0, t * 0.2, Tanh)];
      Step(SELF_SOURCE_STRUCTURE, act, map[1 := 0.5], st, 2) == st[2 := Neuron(0.0, act(Tanh, t * 0.2), Tanh)]
  {
    var st := [Neuron(0.0, 0.0, None), Neuron(0.5, t, Tanh), Neuron(0.0, t * 0.2, Tanh)];
    AddAlongNowhere(st[2 := Neuron(0.0, act(Tanh, t * 0.2), Tanh)], SELF_SOURCE_EDGES, 2, AllEdges, act(Tanh, t * 0.2));
  }

  /** The forward pass of the test with input 0: tanh(tanh(0.5 + 0.5 * (0.7 + 1 + 0.3)) * 0.2). */
  lemma SelfSourceForward(act: ActivationFn)
    requires PositiveOnPositive(act)
    ensures var s := SELF_SOURCE_STRUCTURE;
      && WellFormed(s)
      && Outputs(s, ForwardState(s, act, InitialNeurons(SelfSourceNeurons(), s.shape), [0.0]))
         == [act(Tanh, act(Tanh, 0.5 + 0.5 * (0.7 + 1.0 + 0.3)) * 0.2)]
  {
    var s := SELF_SOURCE_STRUCTURE;
    assert WellFormed(s);
    var st := InitialNeurons(SelfSourceNeurons(), s.shape);
    assert New(0.0, Activation.None) == Neuron(0.0, 0.0, None) && New(0.0, Tanh) == Neuron(0.0, 0.0, Tanh);
    assert st[0] == Neuron(0.0, 0.0, None) && st[1] == Neuron(0.5, 0.0, Tanh) && st[2] == Neuron(0.0, 0.0, Tanh);
    assert st == [Neuron(0.0, 0.0, None), Neuron(0.5, 0.0, Tanh), Neuron(0.0, 0.0, Tanh)];
    var reset := Reset(s, st, [0.0]);
    assert reset == [Neuron(0.0, 0.0, None), Neuron(0.5, 0.5, Tanh), Neuron(0.0, 0.0, Tanh)];
    assert Snapshot(s, reset) == map[1 := 0.5];
    assert Clear(s, reset) == reset;
    var t := act(Tanh, 0.5 + 0.5 * (0.7 + 1.0 + 0.3));
    SelfSourceFirstStep(act);
    SelfSourceLastStep(act, t);
    assert Walk(s, act, map[1 := 0.5], reset, 1) == Step(s, act, map[1 := 0.5], reset, 1);
  }

  /** test_self_connected_source: the system built from the test's neurons and connections answers
      input 0 with tanh(tanh(0.5 + 0.5 * (0.7 + 1 + 0.3)) * 0.2). */
  method SelfConnectedSourceTest(act: ActivationFn) returns (out: seq<real>)
    requires PositiveOnPositive(act)
    ensures out == [act(Tanh, act(Tanh, 0.5 + 0.5 * (0.7 + 1.0 + 0.3)) * 0.2)]
  {
    SelfSourceEdges();
    SelfSourceGraph();
    var ns := new NeuralSystem(SelfSourceNeurons(), SelfSourceConnections(), SELF_SOURCE_SHAPE, act);
    SelfSourceStructure(ns.structure);
    SelfSourceForward(act);
    out := ns.Forward([0.0]);
  }

  // ---- test_self_connected: a self-connected hidden node fed by two inputs ----

  /** Shape (2, 1, 1): inputs 0 and 1, hidden 2, output 3. */
  const SELF_SHAPE := NsShape(2, 1, 1)

  function SelfNeurons(): seq<(bool, Neuron)> {
    [(false, New(0.0, Tanh))]
  }

  /** Both inputs feed the hidden node, which has three self-loops and feeds the output. */
  function SelfConnections(): seq<Connection> {
    [Renumber(Connection(1.2, In, 0, 0), SELF_SHAPE),
     Renumber(Connection(0.9, In, 1, 0), SELF_SHAPE),
     Renumber(Connection(0.7, Internal, 0, 0), SELF_SHAPE),
     Renumber(Connection(1.0, Internal, 0, 0), SELF_SHAPE),
     Renumber(Connection(0.3, Internal, 0, 0), SELF_SHAPE),
     Renumber(Connection(0.2, Out, 0, 0), SELF_SHAPE)]
  }

  const SELF_EDGES: seq<Edge> :=
    [Edge(0, 2, 1.2), Edge(1, 2, 0.9), Edge(2, 2, 0.7), Edge(2, 2, 1.0), Edge(2, 2, 0.3), Edge(2, 3, 0.2)]

  lemma SelfEdgesDecoded()
    ensures ConnEdges(SelfConnections()) == SELF_EDGES
  {
  }

  /** Both inputs reach the output through node 2. */
  lemma SelfAllReach()
    ensures forall x: nat :: x < 4 ==> Reaches(SELF_EDGES, x, {3})
  {
    var es := SELF_EDGES;
    OneStep(es, 5);
    ReachesTrivially(es, 3, {3});
    ReachesStep(es, 2, 3, {3});
    OneStep(es, 0);
    ReachesStep(es, 0, 2, {3});
    OneStep(es, 1);
    ReachesStep(es, 1, 2, {3});
  }

  /** No edge between distinct nodes closes a cycle: from 2 only 2 and 3 are reachable. */
  lemma SelfAcyclic()
    ensures Acyclic(SELF_EDGES)
  {
    var es := SELF_EDGES;
    var closed := {2, 3};
    assert forall i :: 0 <= i < |es| && es[i].src in closed ==> es[i].dst in closed;
    ForwardClosedAvoids(es, closed, {0}, 2);
    ForwardClosedAvoids(es, closed, {1}, 2);
    SinkReachesOnlyItself(es, 3, {2});
  }

  /** Every node reaches the output, and no edge between distinct nodes closes a cycle. */
  lemma SelfGraph()
    ensures var es := SELF_EDGES;
      && EdgesWithin(es, 4) && Acyclic(es)
      && forall x: nat :: x < 4 && Reaches(es, x, OutputNodes(SELF_SHAPE)) <==> x in {0, 1, 2, 3}
  {
    assert OutputNodes(SELF_SHAPE) == {3};
    SelfAllReach();
    SelfAcyclic();
  }

  /** The dependency orders of nodes 0 to 3 without repetitions: the two inputs in either order,
      then 2, then 3. */
  lemma SelfOrder(nodes: seq<nat>)
    requires Distinct(nodes) && Ordered(SELF_EDGES, nodes)
    requires forall x: nat :: x in nodes <==> x in {0, 1, 2, 3}
    ensures nodes == [0, 1, 2, 3] || nodes == [1, 0, 2, 3]
  {
    var es := SELF_EDGES;
    assert SetOf(nodes) == {0, 1, 2, 3};
    DistinctCard(nodes);
    var p0 :| 0 <= p0 < 4 && nodes[p0] == 0;
    var p1 :| 0 <= p1 < 4 && nodes[p1] == 1;
    var p2 :| 0 <= p2 < 4 && nodes[p2] == 2;
    var p3 :| 0 <= p3 < 4 && nodes[p3] == 3;
    OrderedBefore(es, nodes, 0, p0, p2);
    OrderedBefore(es, nodes, 1, p1, p2);
    OrderedBefore(es, nodes, 5, p2, p3);
  }

  /** With every node in the execution order the sources are the two inputs. */
  lemma SelfSources(nodes: seq<nat>)
    requires IsExecutionSet(SELF_EDGES, SELF_SHAPE, nodes) && forall x: nat :: x in nodes <==> x in {0, 1, 2, 3}
    ensures SourceNodes(PrunedEdges(SELF_EDGES, nodes, 2), nodes, 2) == {0, 1}
  {
    var es := SELF_EDGES;
    assert EdgesWithin(es, 4);
    forall v: nat ensures v in SourceNodes(PrunedEdges(es, nodes, 2), nodes, 2) <==> v in {0, 1} {
      SourcesCharacterised(es, SELF_SHAPE, nodes, v);
      assert v == 2 ==> es[0].dst == v && es[0].src != v;
      assert v == 3 ==> es[5].dst == v && es[5].src != v;
    }
  }

  /** With every node in the execution order node 2 alone is self-connected. */
  lemma SelfSelfConnected(nodes: seq<nat>)
    requires IsExecutionSet(SELF_EDGES, SELF_SHAPE, nodes) && forall x: nat :: x in nodes <==> x in {0, 1, 2, 3}
    ensures SelfConnectedNodes(PrunedEdges(SELF_EDGES, nodes, 2), nodes) == {2}
  {
    var es := SELF_EDGES;
    assert EdgesWithin(es, 4);
    assert forall i :: 0 <= i < |es| && es[i].src == es[i].dst ==> es[i].src == 2;
    forall v: nat ensures v in SelfConnectedNodes(PrunedEdges(es, nodes, 2), nodes) <==> v == 2 {
      SelfConnectedCharacterised(es, SELF_SHAPE, nodes, v);
      assert v == 2 ==> es[2].dst == v && es[2].src == v;
    }
  }

  /** With every node in the execution order, the inputs as sources and no memory node, nodes 2 and 3
      are cleared. */
  lemma SelfCleared(nodes: seq<nat>, sources: set<nat>, clear: set<nat>)
    requires (forall x: nat :: x in nodes <==> x in {0, 1, 2, 3}) && sources == {0, 1}
    requires clear == SetOf(nodes) - sources - MemoryNodes(SelfNeurons(), 2)
    ensures clear == {2, 3}
  {
    NoMemory(SelfNeurons(), 2);
    assert SetOf(nodes) == {0, 1, 2, 3};
  }

  /** What `new` builds: the inputs in either order, then 2, then 3; every edge kept; the inputs as
      sources; node 2 self-connected; nodes 2 and 3 cleared. */
  lemma SelfStructure(s: Structure)
    requires s.shape == SELF_SHAPE
    requires Built(s, ConnEdges(SelfConnections()), MemoryNodes(SelfNeurons(), 2))
    ensures s.nodes == [0, 1, 2, 3] || s.nodes == [1, 0, 2, 3]
    ensures s.edges == SELF_EDGES && s.sources == {0, 1} && s.selfConnected == {2} && s.nodesToClear == {2, 3}
  {
    var es := SELF_EDGES;
    SelfEdgesDecoded();
    SelfGraph();
    SelfOrder(s.nodes);
    FilterKeepsAll(es, KeptNodes(s.nodes, 2));
    SelfSources(s.nodes);
    SelfSelfConnected(s.nodes);
    SelfCleared(s.nodes, s.sources, s.nodesToClear);
  }

  /** The structure `SelfStructure` pins down, for either order of the inputs. */
  ghost predicate IsSelfStructure(s: Structure) {
    && s.shape == SELF_SHAPE && s.edges == SELF_EDGES
    && (s.nodes == [0, 1, 2, 3] || s.nodes == [1, 0, 2, 3])
    && s.sources == {0, 1} && s.selfConnected == {2} && s.nodesToClear == {2, 3}
  }

  /** Input 0 feeds node 2 with weight 1.2, input 1 with 0.9; the self-loops weigh 2 together and the
      edge to the output 0.2. */
  lemma SelfWeights()
    ensures WeightInto(SELF_EDGES, 0, AllEdges, 2) == 1.2 && WeightInto(SELF_EDGES, 1, AllEdges, 2) == 0.9
    ensures WeightInto(SELF_EDGES, 2, SelfEdges, 2) == 2.0 && WeightInto(SELF_EDGES, 2, OtherEdges, 3) == 0.2
  {
    var es := SELF_EDGES;
    var e1, e2, e3, e4, e5 := es[..1], es[..2], es[..3], es[..4], es[..5];
    assert e1[..0] == [] && e2[..1] == e1 && e3[..2] == e2 && e4[..3] == e3 && e5[..4] == e4 && es[..5] == e5;
    assert WeightInto(e1, 0, AllEdges, 2) == 1.2 && WeightInto(e1, 1, AllEdges, 2) == 0.0;
    assert WeightInto(e1, 2, SelfEdges, 2) == 0.0 && WeightInto(e1, 2, OtherEdges, 3) == 0.0;
    assert WeightInto(e2, 0, AllEdges, 2) == 1.2 && WeightInto(e2, 1, AllEdges, 2) == 0.9;
    assert WeightInto(e2, 2, SelfEdges, 2) == 0.0 && WeightInto(e2, 2, OtherEdges, 3) == 0.0;
    assert WeightInto(e3, 0, AllEdges, 2) == 1.2 && WeightInto(e3, 1, AllEdges, 2) == 0.9;
    assert WeightInto(e3, 2, SelfEdges, 2) == 0.7 && WeightInto(e3, 2, OtherEdges, 3) == 0.0;
    assert WeightInto(e4, 0, AllEdges, 2) == 1.2 && WeightInto(e4, 1, AllEdges, 2) == 0.9;
    assert WeightInto(e4, 2, SelfEdges, 2) == 1.7 && WeightInto(e4, 2, OtherEdges, 3) == 0.0;
    assert WeightInto(e5, 0, AllEdges, 2) == 1.2 && WeightInto(e5, 1, AllEdges, 2) == 0.9;
    assert WeightInto(e5, 2, SelfEdges, 2) == 2.0 && WeightInto(e5, 2, OtherEdges, 3) == 0.0;
  }

  /** An input is a source: it sends its value, unfired, to node 2 with its edge weight. */
  lemma SelfInputStep(act: ActivationFn, s: Structure, st: seq<Neuron>, v: nat)
    requires IsSelfStructure(s) && |st| == 4 && v < 2
    ensures WellFormed(s)
    ensures Step(s, act, map[2 := 0.74], st, v)
      == st[2 := st[2].(value := st[2].value + Signal(if v == 0 then 1.2 else 0.9, st[v].value))]
  {
    var es := SELF_EDGES;
    assert WellFormed(s);
    SelfWeights();
    AddAlongInto(st, es, v, AllEdges, st[v].value, 2);
  }

  /** Node 2 adds its self-loops times the snapshot 0.74, fires, and sends the result to the output
      with weight 0.2. */
  lemma SelfHiddenStep(act: ActivationFn, s: Structure, st: seq<Neuron>, a: real)
    requires IsSelfStructure(s) && |st| == 4 && a > 0.0
    requires st[2] == Neuron(0.0, a, Tanh) && st[3] == Neuron(0.0, 0.0, Tanh)
    ensures WellFormed(s)
    ensures var t := act(Tanh, a + 0.74 * 2.0);
      Step(s, act, map[2 := 0.74], st, 2) == st[2 := Neuron(0.0, t, Tanh)][3 := Neuron(0.0, t * 0.2, Tanh)]
  {
    var es := SELF_EDGES;
    assert WellFormed(s);
    SelfWeights();
    AddAlongInto(st, es, 2, SelfEdges, 0.74, 2);
    var withSelf := st[2 := Neuron(0.0, a + 0.74 * 2.0, Tanh)];
    var t := act(Tanh, a + 0.74 * 2.0);
    AddAlongInto(withSelf[2 := Neuron(0.0, t, Tanh)], es, 2, OtherEdges, t, 3);
  }

  /** The output fires and has no edge to propagate along. */
  lemma SelfOutputStep(act: ActivationFn, s: Structure, st: seq<Neuron>, y: real)
    requires IsSelfStructure(s) && |st| == 4 && y > 0.0
    requires st[3] == Neuron(0.0, y, Tanh)
    ensures WellFormed(s)
    ensures Step(s, act, map[2 := 0.74], st, 3) == st[3 := Neuron(0.0, act(Tanh, y), Tanh)]
  {
    assert WellFormed(s);
    AddAlongNowhere(st[3 := Neuron(0.0, act(Tanh, y), Tanh)], SELF_EDGES, 3, AllEdges, act(Tanh, y));
  }

  /** The neuron values the test starts from: the built system's, with node 2 set to 0.74. */
  function SelfStart(): (st: seq<Neuron>)
    ensures |st| == 4
  {
    InitialNeurons(SelfNeurons(), SELF_SHAPE)[2 := Neuron(0.0, 0.74, Tanh)]
  }

  lemma SelfStartValues()
    ensures InitialNeurons(SelfNeurons(), SELF_SHAPE)
      == [Neuron(0.0, 0.0, None), Neuron(0.0, 0.0, None), Neuron(0.0, 0.0, Tanh), Neuron(0.0, 0.0, Tanh)]
  {
    var st := InitialNeurons(SelfNeurons(), SELF_SHAPE);
    assert New(0.0, Activation.None) == Neuron(0.0, 0.0, None) && New(0.0, Tanh) == Neuron(0.0, 0.0, Tanh);
    assert st[0] == Neuron(0.0, 0.0, None) && st[1] == Neuron(0.0, 0.0, None);
    assert st[2] == Neuron(0.0, 0.0, Tanh) && st[3] == Neuron(0.0, 0.0, Tanh);
  }

  /** The pass resets the inputs to 0.9 and 0.4, snapshots node 2 at 0.74, and clears it. */
  lemma SelfStartPass(s: Structure)
    requires IsSelfStructure(s)
    ensures WellFormed(s)
    ensures var reset := Reset(s, SelfStart(), [0.9, 0.4]);
      && Snapshot(s, reset) == map[2 := 0.74]
      && Clear(s, reset) == [Neuron(0.0, 0.9, None), Neuron(0.0, 0.4, None), Neuron(0.0, 0.0, Tanh), Neuron(0.0, 0.0, Tanh)]
  {
    assert WellFormed(s);
    var st := SelfStart();
    SelfStartValues();
    assert st == [Neuron(0.0, 0.0, None), Neuron(0.0, 0.0, None), Neuron(0.0, 0.74, Tanh), Neuron(0.0, 0.0, Tanh)];
    var reset := Reset(s, st, [0.9, 0.4]);
    assert reset == [Neuron(0.0, 0.9, None), Neuron(0.0, 0.4, None), Neuron(0.0, 0.74, Tanh), Neuron(0.0, 0.0, Tanh)];
  }

  /** Both inputs in either order: node 2 holds 1.2 * 0.9 + 0.9 * 0.4. */
  lemma SelfInputs(act: ActivationFn, s: Structure)
    requires IsSelfStructure(s)
    ensures WellFormed(s)
    ensures var cleared := [Neuron(0.0, 0.9, None), Neuron(0.0, 0.4, None), Neuron(0.0, 0.0, Tanh), Neuron(0.0, 0.0, Tanh)];
      Walk(s, act, map[2 := 0.74], cleared, 2) == cleared[2 := Neuron(0.0, 1.2 * 0.9 + 0.9 * 0.4, Tanh)]
  {
    assert WellFormed(s);
    var snap := map[2 := 0.74];
    var cleared := [Neuron(0.0, 0.9, None), Neuron(0.0, 0.4, None), Neuron(0.0, 0.0, Tanh), Neuron(0.0, 0.0, Tanh)];
    var first := Step(s, act, snap, cleared, s.nodes[0]);
    SelfInputStep(act, s, cleared, s.nodes[0]);
    SelfInputStep(act, s, first, s.nodes[1]);
    assert Walk(s, act, snap, cleared, 1) == first;
  }

  /** The forward pass of the test with input [0.9, 0.4], in either order of the inputs:
      tanh(tanh(0.74 * (0.7 + 1 + 0.3) + 0.9 * 1.2 + 0.4 * 0.9) * 0.2). */
  lemma SelfForward(act: ActivationFn, s: Structure)
    requires IsSelfStructure(s) && PositiveOnPositive(act)
    ensures WellFormed(s)
    ensures Outputs(s, ForwardState(s, act, SelfStart(), [0.9, 0.4]))
      == [act(Tanh, act(Tanh, 0.74 * 0.7 + 0.74 * 1.0 + 0.74 * 0.3 + 0.9 * 1.2 + 0.4 * 0.9) * 0.2)]
  {
    assert WellFormed(s);
    var snap := map[2 := 0.74];
    var cleared := [Neuron(0.0, 0.9, None), Neuron(0.0, 0.4, None), Neuron(0.0, 0.0, Tanh), Neuron(0.0, 0.0, Tanh)];
    SelfStartPass(s);
    var fed := cleared[2 := Neuron(0.0, 1.2 * 0.9 + 0.9 * 0.4, Tanh)];
    SelfInputs(act, s);
    var t := act(Tanh, 1.2 * 0.9 + 0.9 * 0.4 + 0.74 * 2.0);
    SelfHiddenStep(act, s, fed, 1.2 * 0.9 + 0.9 * 0.4);
    var fired := fed[2 := Neuron(0.0, t, Tanh)][3 := Neuron(0.0, t * 0.2, Tanh)];
    assert Walk(s, act, snap, cleared, 3) == fired;
    SelfOutputStep(act, s, fired, t * 0.2);
  }

  /** test_self_connected: the system built from the test's neurons and connections, with node 2 set to
      0.74, answers input [0.9, 0.4] with tanh(tanh(0.74 * (0.7 + 1 + 0.3) + 0.9 * 1.2 + 0.4 * 0.9) * 0.2). */
  method SelfConnectedTest(act: ActivationFn) returns (out: seq<real>)
    requires PositiveOnPositive(act)
    ensures out == [act(Tanh, act(Tanh, 0.74 * 0.7 + 0.74 * 1.0 + 0.74 * 0.3 + 0.9 * 1.2 + 0.4 * 0.9) * 0.2)]
  {
    SelfEdgesDecoded();
    SelfGraph();
    var ns := new NeuralSystem(SelfNeurons(), SelfConnections(), SELF_SHAPE, act);
    SelfStructure(ns.structure);
    SelfStartValues();
    ns.neurons[2] := ns.neurons[2].(value := 0.74);
    assert ns.neurons[..] == SelfStart();
    SelfForward(act, ns.structure);
    out := ns.Forward([0.9, 0.4]);
  }

  // ---- test_output_node_ordering: a chain whose order the walk must respect ----

  /** Shape (1, 3, 1): input 0, hidden 1 to 3, output 4. */
  const ORDERING_SHAPE := NsShape(1, 3, 1)

  /** Hidden 3 has threshold 0.5 and no incoming edge, so it is a source reset to 0.5. */
  function OrderingNeurons(): seq<(bool, Neuron)> {
    [(false, New(0.0, Tanh)), (false, New(0.0, Tanh)), (false, New(0.5, Tanh))]
  }

  /** The test's connections, in the order it writes them; it shuffles them before building, and the
      lemmas here hold for this order. */
  function OrderingConnections(): seq<Connection> {
    [Renumber(Connection(1.0, In, 0, 0), ORDERING_SHAPE),
     Renumber(Connection(0.6, Internal, 1, 0), ORDERING_SHAPE),
     Renumber(Connection(0.4, Internal, 2, 1), ORDERING_SHAPE),
     Renumber(Connection(0.5, Out, 0, 0), ORDERING_SHAPE)]
  }

  const ORDERING_EDGES: seq<Edge> := [Edge(0, 1, 1.0), Edge(2, 1, 0.6), Edge(3, 2, 0.4), Edge(1, 4, 0.5)]

  lemma OrderingEdgesDecoded()
    ensures ConnEdges(OrderingConnections()) == ORDERING_EDGES
  {
  }

  /** Every node reaches the output along the chain 3, 2, 1, 4 or through 1. */
  lemma OrderingAllReach()
    ensures forall x: nat :: x < 5 ==> Reaches(ORDERING_EDGES, x, {4})
  {
    var es := ORDERING_EDGES;
    ReachesTrivially(es, 4, {4});
    OneStep(es, 3);
    ReachesStep(es, 1, 4, {4});
    OneStep(es, 0);
    ReachesStep(es, 0, 1, {4});
    OneStep(es, 1);
    ReachesStep(es, 2, 1, {4});
    OneStep(es, 2);
    ReachesStep(es, 3, 2, {4});
  }

  /** No edge between distinct nodes closes a cycle: from 1 only 4 is reachable, from 2 only 1 and 4. */
  lemma OrderingAcyclic()
    ensures Acyclic(ORDERING_EDGES)
  {
    var es := ORDERING_EDGES;
    var closed := {1, 4};
    assert forall i :: 0 <= i < |es| && es[i].src in closed ==> es[i].dst in closed;
    ForwardClosedAvoids(es, closed, {0}, 1);
    ForwardClosedAvoids(es, closed, {2}, 1);
    var below := {1, 2, 4};
    assert forall i :: 0 <= i < |es| && es[i].src in below ==> es[i].dst in below;
    ForwardClosedAvoids(es, below, {3}, 2);
    SinkReachesOnlyItself(es, 4, {1});
  }

  /** Every node reaches the output, and no edge between distinct nodes closes a cycle. */
  lemma OrderingGraph()
    ensures var es := ORDERING_EDGES;
      && EdgesWithin(es, 5) && Acyclic(es)
      && forall x: nat :: x < 5 && Reaches(es, x, OutputNodes(ORDERING_SHAPE)) <==> x in {0, 1, 2, 3, 4}
  {
    assert OutputNodes(ORDERING_SHAPE) == {4};
    OrderingAllReach();
    OrderingAcyclic();
  }

  /** The dependency orders of nodes 0 to 4 without repetitions: 3 before 2, then 1, then 4, with the
      input anywhere before 1. */
  lemma OrderingOrder(nodes: seq<nat>)
    requires Distinct(nodes) && Ordered(ORDERING_EDGES, nodes)
    requires forall x: nat :: x in nodes <==> x in {0, 1, 2, 3, 4}
    ensures nodes in {[0, 3, 2, 1, 4], [3, 0, 2, 1, 4], [3, 2, 0, 1, 4]}
  {
    var es := ORDERING_EDGES;
    assert SetOf(nodes) == {0, 1, 2, 3, 4};
    DistinctCard(nodes);
    var p0 :| 0 <= p0 < 5 && nodes[p0] == 0;
    var p1 :| 0 <= p1 < 5 && nodes[p1] == 1;
    var p2 :| 0 <= p2 < 5 && nodes[p2] == 2;
    var p3 :| 0 <= p3 < 5 && nodes[p3] == 3;
    var p4 :| 0 <= p4 < 5 && nodes[p4] == 4;
    OrderedBefore(es, nodes, 0, p0, p1);
    OrderedBefore(es, nodes, 1, p2, p1);
    OrderedBefore(es, nodes, 2, p3, p2);
    OrderedBefore(es, nodes, 3, p1, p4);
    assert nodes == [nodes[0], nodes[1], nodes[2], nodes[3], nodes[4]];
  }

  /** With every node in the execution order the sources are the input and hidden 3, which no edge
      enters. */
  lemma OrderingSources(nodes: seq<nat>)
    requires IsExecutionSet(ORDERING_EDGES, ORDERING_SHAPE, nodes) && forall x: nat :: x in nodes <==> x in {0, 1, 2, 3, 4}
    ensures SourceNodes(PrunedEdges(ORDERING_EDGES, nodes, 1), nodes, 1) == {0, 3}
  {
    var es := ORDERING_EDGES;
    assert EdgesWithin(es, 5);
    assert forall i :: 0 <= i < |es| ==> es[i].dst != 3 && es[i].src != es[i].dst;
    forall v: nat ensures v in SourceNodes(PrunedEdges(es, nodes, 1), nodes, 1) <==> v in {0, 3} {
      SourcesCharacterised(es, ORDERING_SHAPE, nodes, v);
      assert v == 1 ==> es[0].dst == v && es[0].src != v;
      assert v == 2 ==> es[2].dst == v && es[2].src != v;
      assert v == 4 ==> es[3].dst == v && es[3].src != v;
    }
  }

  /** No edge is a self-loop, so no node is self-connected. */
  lemma OrderingSelfConnected(nodes: seq<nat>)
    requires IsExecutionSet(ORDERING_EDGES, ORDERING_SHAPE, nodes)
    ensures SelfConnectedNodes(PrunedEdges(ORDERING_EDGES, nodes, 1), nodes) == {}
  {
    var es := ORDERING_EDGES;
    assert EdgesWithin(es, 5);
    forall v: nat ensures v !in SelfConnectedNodes(PrunedEdges(es, nodes, 1), nodes) {
      SelfConnectedCharacterised(es, ORDERING_SHAPE, nodes, v);
    }
  }

  /** With every node in the execution order, the two sources and no memory node, the other three
      nodes are cleared. */
  lemma OrderingCleared(nodes: seq<nat>, sources: set<nat>, clear: set<nat>)
    requires (forall x: nat :: x in nodes <==> x in {0, 1, 2, 3, 4}) && sources == {0, 3}
    requires clear == SetOf(nodes) - sources - MemoryNodes(OrderingNeurons(), 1)
    ensures clear == {1, 2, 4}
  {
    NoMemory(OrderingNeurons(), 1);
    assert SetOf(nodes) == {0, 1, 2, 3, 4};
  }

  /** What `new` builds: one of the three dependency orders, every edge kept, the input and hidden 3 as
      the two sources, nothing self-connected, the other three nodes cleared. */
  lemma OrderingStructure(s: Structure)
    requires s.shape == ORDERING_SHAPE
    requires Built(s, ConnEdges(OrderingConnections()), MemoryNodes(OrderingNeurons(), 1))
    ensures s.nodes in {[0, 3, 2, 1, 4], [3, 0, 2, 1, 4], [3, 2, 0, 1, 4]}
    ensures s.edges == ORDERING_EDGES && s.sources == {0, 3} && |s.sources| == 2
    ensures s.selfConnected == {} && s.nodesToClear == {1, 2, 4}
  {
    OrderingEdgesDecoded();
    OrderingNodes(s.nodes);
    OrderingGraph();
    OrderingOrder(s.nodes);
    OrderingPruned(s.nodes);
    OrderingSources(s.nodes);
    OrderingSelfConnected(s.nodes);
    OrderingCleared(s.nodes, s.sources, s.nodesToClear);
  }

  /** The execution set of the ordering network holds all five nodes. */
  lemma OrderingNodes(nodes: seq<nat>)
    requires IsExecutionSet(ORDERING_EDGES, ORDERING_SHAPE, nodes)
    ensures forall x: nat :: x in nodes <==> x in {0, 1, 2, 3, 4}
  {
    OrderingGraph();
  }

  /** With all five nodes kept, pruning keeps every edge. */
  lemma OrderingPruned(nodes: seq<nat>)
    requires forall x: nat :: x in nodes <==> x in {0, 1, 2, 3, 4}
    ensures PrunedEdges(ORDERING_EDGES, nodes, 1) == ORDERING_EDGES
  {
    var es := ORDERING_EDGES;
    assert forall i :: 0 <= i < |es| ==> es[i].src in KeptNodes(nodes, 1) && es[i].dst in KeptNodes(nodes, 1);
    FilterKeepsAll(es, KeptNodes(nodes, 1));
  }

  /** The structure `OrderingStructure` pins down, for each of the three orders. */
  ghost predicate IsOrderingStructure(s: Structure) {
    && s.shape == ORDERING_SHAPE && s.edges == ORDERING_EDGES
    && s.nodes in {[0, 3, 2, 1, 4], [3, 0, 2, 1, 4], [3, 2, 0, 1, 4]}
    && s.sources == {0, 3} && s.selfConnected == {} && s.nodesToClear == {1, 2, 4}
  }

  /** Each node sends along its one outgoing edge: 0 and 2 into 1, 3 into 2, 1 into 4. */
  lemma OrderingWeights()
    ensures WeightInto(ORDERING_EDGES, 0, AllEdges, 1) == 1.0 && WeightInto(ORDERING_EDGES, 2, AllEdges, 1) == 0.6
    ensures WeightInto(ORDERING_EDGES, 3, AllEdges, 2) == 0.4 && WeightInto(ORDERING_EDGES, 1, AllEdges, 4) == 0.5
  {
    var es := ORDERING_EDGES;
    var e1, e2, e3 := es[..1], es[..2], es[..3];
    assert e1[..0] == [] && e2[..1] == e1 && e3[..2] == e2 && es[..3] == e3;
    assert WeightInto(e1, 0, AllEdges, 1) == 1.0 && WeightInto(e1, 2, AllEdges, 1) == 0.0;
    assert WeightInto(e1, 3, AllEdges, 2) == 0.0 && WeightInto(e1, 1, AllEdges, 4) == 0.0;
    assert WeightInto(e2, 0, AllEdges, 1) == 1.0 && WeightInto(e2, 2, AllEdges, 1) == 0.6;
    assert WeightInto(e2, 3, AllEdges, 2) == 0.0 && WeightInto(e2, 1, AllEdges, 4) == 0.0;
    assert WeightInto(e3, 0, AllEdges, 1) == 1.0 && WeightInto(e3, 2, AllEdges, 1) == 0.6;
    assert WeightInto(e3, 3, AllEdges, 2) == 0.4 && WeightInto(e3, 1, AllEdges, 4) == 0.0;
  }

  /** A source sends its value, unfired, along its one edge: the input into 1, hidden 3 into 2. */
  lemma OrderingSourceStep(act: ActivationFn, s: Structure, st: seq<Neuron>, v: nat)
    requires IsOrderingStructure(s) && |st| == 5 && v in {0, 3}
    ensures WellFormed(s)
    ensures var d := if v == 0 then 1 else 2;
      Step(s, act, map[], st, v) == st[d := st[d].(value := st[d].value + Signal(if v == 0 then 1.0 else 0.4, st[v].value))]
  {
    assert WellFormed(s);
    OrderingWeights();
    AddAlongInto(st, ORDERING_EDGES, v, AllEdges, st[v].value, if v == 0 then 1 else 2);
  }

  /** A hidden node that is no source fires and sends its output along its one edge: 2 into 1 with
      weight 0.6, 1 into 4 with weight 0.5. */
  lemma OrderingInnerStep(act: ActivationFn, s: Structure, st: seq<Neuron>, v: nat, x: real)
    requires IsOrderingStructure(s) && |st| == 5 && v in {1, 2} && x > 0.0
    requires st[v] == Neuron(0.0, x, Tanh)
    ensures WellFormed(s)
    ensures var d := if v == 2 then 1 else 4;
      var y := act(Tanh, x);
      Step(s, act, map[], st, v)
        == st[v := Neuron(0.0, y, Tanh)][d := st[d].(value := st[d].value + Signal(if v == 2 then 0.6 else 0.5, y))]
  {
    assert WellFormed(s);
    OrderingWeights();
    var y := act(Tanh, x);
    AddAlongInto(st[v := Neuron(0.0, y, Tanh)], ORDERING_EDGES, v, AllEdges, y, if v == 2 then 1 else 4);
  }

  /** The output fires and has no edge to propagate along. */
  lemma OrderingOutputStep(act: ActivationFn, s: Structure, st: seq<Neuron>, y: real)
    requires IsOrderingStructure(s) && |st| == 5 && y > 0.0
    requires st[4] == Neuron(0.0, y, Tanh)
    ensures WellFormed(s)
    ensures Step(s, act, map[], st, 4) == st[4 := Neuron(0.0, act(Tanh, y), Tanh)]
  {
    assert WellFormed(s);
    AddAlongNowhere(st[4 := Neuron(0.0, act(Tanh, y), Tanh)], ORDERING_EDGES, 4, AllEdges, act(Tanh, y));
  }

  /** The cleared state of the test's pass: the input holds 0.8, hidden 3 its threshold 0.5. */
  const ORDERING_CLEARED: seq<Neuron> :=
    [Neuron(0.0, 0.8, None), Neuron(0.0, 0.0, Tanh), Neuron(0.0, 0.0, Tanh), Neuron(0.5, 0.5, Tanh), Neuron(0.0, 0.0, Tanh)]

  /** The pass resets the input to 0.8 and hidden 3 to its threshold, snapshots nothing, and the cleared
      nodes already hold 0. */
  lemma OrderingStart(s: Structure)
    requires IsOrderingStructure(s)
    ensures WellFormed(s)
    ensures var reset := Reset(s, InitialNeurons(OrderingNeurons(), ORDERING_SHAPE), [0.8]);
      Snapshot(s, reset) == map[] && Clear(s, reset) == ORDERING_CLEARED
  {
    assert WellFormed(s);
    var st := InitialNeurons(OrderingNeurons(), ORDERING_SHAPE);
    assert New(0.0, Activation.None) == Neuron(0.0, 0.0, None) && New(0.0, Tanh) == Neuron(0.0, 0.0, Tanh);
    assert New(0.5, Tanh) == Neuron(0.5, 0.0, Tanh);
    assert st[0] == Neuron(0.0, 0.0, None) && st[1] == Neuron(0.0, 0.0, Tanh) && st[2] == Neuron(0.0, 0.0, Tanh);
    assert st[3] == Neuron(0.5, 0.0, Tanh) && st[4] == Neuron(0.0, 0.0, Tanh);
    var reset := Reset(s, st, [0.8]);
    assert reset == ORDERING_CLEARED;
  }

  /** In every order, the first three steps (the input, hidden 3 and hidden 2) leave hidden 2 fired on
      0.4 * 0.5 and hidden 1 holding the input plus 0.6 times that. */
  lemma OrderingPrefix(act: ActivationFn, s: Structure)
    requires IsOrderingStructure(s) && PositiveOnPositive(act)
    ensures WellFormed(s)
    ensures var a := act(Tanh, 0.4 * 0.5);
      Walk(s, act, map[], ORDERING_CLEARED, 3)
        == ORDERING_CLEARED[1 := Neuron(0.0, 1.0 * 0.8 + 0.6 * a, Tanh)][2 := Neuron(0.0, a, Tanh)]
  {
    assert WellFormed(s);
    var st := ORDERING_CLEARED;
    var snap: map<nat, real> := map[];
    var a := act(Tanh, 0.4 * 0.5);
    var w1 := Step(s, act, snap, st, s.nodes[0]);
    var w2 := Step(s, act, snap, w1, s.nodes[1]);
    var w3 := Step(s, act, snap, w2, s.nodes[2]);
    assert Walk(s, act, snap, st, 1) == w1;
    assert Walk(s, act, snap, st, 2) == w2;
    if s.nodes[1] == 0 || s.nodes[0] == 0 {
      // the sources first, then 2
      OrderingSourceStep(act, s, st, s.nodes[0]);
      OrderingSourceStep(act, s, w1, s.nodes[1]);
      assert w2 == st[1 := Neuron(0.0, 1.0 * 0.8, Tanh)][2 := Neuron(0.0, 0.4 * 0.5, Tanh)];
      OrderingInnerStep(act, s, w2, 2, 0.4 * 0.5);
    } else {
      // 3, then 2, then the input
      OrderingSourceStep(act, s, st, 3);
      OrderingInnerStep(act, s, w1, 2, 0.4 * 0.5);
      OrderingSourceStep(act, s, w2, 0);
    }
  }

  /** Hidden 1 fires and feeds the output, which fires in turn. */
  lemma OrderingSuffix(act: ActivationFn, s: Structure)
    requires IsOrderingStructure(s) && PositiveOnPositive(act)
    ensures WellFormed(s)
    ensures Walk(s, act, map[], ORDERING_CLEARED, 5)[4].value
      == act(Tanh, act(Tanh, act(Tanh, 0.5 * 0.4) * 0.6 + 0.8) * 0.5)
  {
    OrderingPrefix(act, s);
    var a := act(Tanh, 0.4 * 0.5);
    var w3 := ORDERING_CLEARED[1 := Neuron(0.0, 1.0 * 0.8 + 0.6 * a, Tanh)][2 := Neuron(0.0, a, Tanh)];
    var b := act(Tanh, 1.0 * 0.8 + 0.6 * a);
    OrderingInnerStep(act, s, w3, 1, 1.0 * 0.8 + 0.6 * a);
    var w4 := w3[1 := Neuron(0.0, b, Tanh)][4 := Neuron(0.0, 0.5 * b, Tanh)];
    assert Walk(s, act, map[], ORDERING_CLEARED, 4) == w4;
    OrderingOutputStep(act, s, w4, 0.5 * b);
  }

  /** The forward pass of the test with input 0.8, in each of the three orders:
      tanh(tanh(tanh(0.5 * 0.4) * 0.6 + 0.8) * 0.5). */
  lemma OrderingForward(act: ActivationFn, s: Structure)
    requires IsOrderingStructure(s) && PositiveOnPositive(act)
    ensures WellFormed(s)
    ensures Outputs(s, ForwardState(s, act, InitialNeurons(OrderingNeurons(), ORDERING_SHAPE), [0.8]))
      == [act(Tanh, act(Tanh, act(Tanh, 0.5 * 0.4) * 0.6 + 0.8) * 0.5)]
  {
    assert WellFormed(s);
    OrderingStart(s);
    OrderingSuffix(act, s);
  }

  /** test_output_node_ordering: the system built from the test's neurons and connections has two
      sources and answers input 0.8 with tanh(tanh(tanh(0.5 * 0.4) * 0.6 + 0.8) * 0.5), whichever
      dependency order its search picked. */
  method OutputNodeOrderingTest(act: ActivationFn) returns (sourceCount: nat, out: seq<real>)
    requires PositiveOnPositive(act)
    ensures sourceCount == 2
    ensures out == [act(Tanh, act(Tanh, act(Tanh, 0.5 * 0.4) * 0.6 + 0.8) * 0.5)]
  {
    OrderingEdgesDecoded();
    OrderingGraph();
    var ns := new NeuralSystem(OrderingNeurons(), OrderingConnections(), ORDERING_SHAPE, act);
    OrderingStructure(ns.structure);
    sourceCount := |ns.structure.sources|;
    OrderingForward(act, ns.structure);
    out := ns.Forward([0.8]);
  }
}
