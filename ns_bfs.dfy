/** The breadth-first generation of the neural system (src/components/ns.rs): the nodes connected to an
    output are found by a breadth-first search backwards from the outputs, the incoming edges of every
    dequeued node are collected into the evaluation list, and the node values live in a map keyed by
    the connected nodes. */
module BfsNeuralSystems {
  import opened Graphs
  import opened Connections
  import NeuralSystems

  // ---- edge lists ----

  /** The edges into `v`, newest first: the order in which the graph library walks them. */
  function InEdges(es: seq<Edge>, v: nat): seq<Edge> {
    if |es| == 0 then []
    else (if es[|es| - 1].dst == v then [es[|es| - 1]] else []) + InEdges(es[..|es| - 1], v)
  }

  /** The edges whose target lies in `s`, in their order. */
  function IntoSet(es: seq<Edge>, s: set<nat>): seq<Edge> {
    if |es| == 0 then []
    else IntoSet(es[..|es| - 1], s) + (if es[|es| - 1].dst in s then [es[|es| - 1]] else [])
  }

  lemma {:induction false} InEdgesSpec(es: seq<Edge>, v: nat)
    ensures forall e :: e in InEdges(es, v) ==> e in es && e.dst == v
    ensures forall i :: 0 <= i < |es| && es[i].dst == v ==> es[i] in InEdges(es, v)
  {
    if |es| > 0 {
      InEdgesSpec(es[..|es| - 1], v);
      assert forall i :: 0 <= i < |es| - 1 ==> es[..|es| - 1][i] == es[i];
    }
  }

  lemma InEdgesMember(es: seq<Edge>, v: nat, e: Edge)
    requires e in InEdges(es, v)
    ensures e in es && e.dst == v
  {
    InEdgesSpec(es, v);
  }

  lemma {:induction false} IntoSetSpec(es: seq<Edge>, s: set<nat>)
    ensures forall e :: e in IntoSet(es, s) <==> e in es && e.dst in s
  {
    if |es| > 0 {
      IntoSetSpec(es[..|es| - 1], s);
      assert es == es[..|es| - 1] + [es[|es| - 1]];
    }
  }

  lemma {:induction false} IntoSetNone(es: seq<Edge>)
    ensures IntoSet(es, {}) == []
  {
    if |es| > 0 {
      IntoSetNone(es[..|es| - 1]);
    }
  }

  /** Adding one node to the target set adds its incoming edges, in whatever order. */
  lemma {:induction false} IntoSetAdd(es: seq<Edge>, s: set<nat>, v: nat)
    requires v !in s
    ensures multiset(IntoSet(es, s + {v})) == multiset(IntoSet(es, s)) + multiset(InEdges(es, v))
  {
    if |es| > 0 {
      IntoSetAdd(es[..|es| - 1], s, v);
    }
  }

  /** Two target sets that no edge tells apart select the same edges. */
  lemma {:induction false} IntoSetSame(es: seq<Edge>, s1: set<nat>, s2: set<nat>)
    requires forall i :: 0 <= i < |es| ==> (es[i].dst in s1 <==> es[i].dst in s2)
    ensures IntoSet(es, s1) == IntoSet(es, s2)
  {
    if |es| > 0 {
      assert forall i :: 0 <= i < |es| - 1 ==> es[..|es| - 1][i] == es[i];
      IntoSetSame(es[..|es| - 1], s1, s2);
    }
  }

  function Reversed(s: seq<Edge>): (r: seq<Edge>)
    ensures |r| == |s| && forall i :: 0 <= i < |s| ==> r[i] == s[|s| - 1 - i]
  {
    seq(|s|, i requires 0 <= i < |s| => s[|s| - 1 - i])
  }

  lemma {:induction false} ReversedMultiset(s: seq<Edge>)
    ensures multiset(Reversed(s)) == multiset(s)
  {
    if |s| > 0 {
      ReversedMultiset(s[..|s| - 1]);
      assert Reversed(s) == [s[|s| - 1]] + Reversed(s[..|s| - 1]);
      assert s == s[..|s| - 1] + [s[|s| - 1]];
    }
  }

  /** The sources of `edges` that are not in `seen`, each at its first occurrence: the nodes a walk
      over `edges` enqueues when `seen` is already connected. */
  function FirstSeen(edges: seq<Edge>, seen: set<nat>): seq<nat> {
    if |edges| == 0 then []
    else
      var f := FirstSeen(edges[..|edges| - 1], seen);
      var x := edges[|edges| - 1].src;
      if x in seen || x in f then f else f + [x]
  }

  /** What is enqueued is enqueued once: the nodes `FirstSeen` lists are distinct, none was seen, and
      they are exactly the unseen sources. */
  lemma {:induction false} FirstSeenSpec(edges: seq<Edge>, seen: set<nat>)
    ensures Distinct(FirstSeen(edges, seen))
    ensures forall x :: x in FirstSeen(edges, seen) <==>
      x !in seen && exists i :: 0 <= i < |edges| && edges[i].src == x
  {
    if |edges| > 0 {
      var init := edges[..|edges| - 1];
      FirstSeenSpec(init, seen);
      assert forall i :: 0 <= i < |init| ==> init[i] == edges[i];
    }
  }

  /** The incoming edges of the nodes of `order`, node after node. */
  function Collected(es: seq<Edge>, order: seq<nat>): seq<Edge> {
    if |order| == 0 then []
    else Collected(es, order[..|order| - 1]) + InEdges(es, order[|order| - 1])
  }

  lemma CollectedSnoc(es: seq<Edge>, order: seq<nat>, v: nat)
    ensures Collected(es, order + [v]) == Collected(es, order) + InEdges(es, v)
  {
    assert (order + [v])[..|order|] == order;
  }

  /** Walking `a` and then `b` enqueues what `a` enqueues, then what `b` enqueues once `a`'s nodes are
      seen as well. */
  lemma {:induction false} FirstSeenAppend(a: seq<Edge>, b: seq<Edge>, seen: set<nat>)
    ensures FirstSeen(a + b, seen) == FirstSeen(a, seen) + FirstSeen(b, seen + NeuralSystems.SetOf(FirstSeen(a, seen)))
  {
    if |b| > 0 {
      var b0 := b[..|b| - 1];
      assert (a + b)[..|a + b| - 1] == a + b0;
      FirstSeenAppend(a, b0, seen);
    } else {
      assert a + b == a;
    }
  }

  /** One more edge enqueues its source exactly when that source is not connected yet. */
  lemma FirstSeenSnoc(edges: seq<Edge>, e: Edge, seen: set<nat>, c: set<nat>)
    requires c == seen + NeuralSystems.SetOf(FirstSeen(edges, seen))
    ensures FirstSeen(edges + [e], seen) == FirstSeen(edges, seen) + (if e.src in c then [] else [e.src])
    ensures c + {e.src} == seen + NeuralSystems.SetOf(FirstSeen(edges + [e], seen))
  {
    assert (edges + [e])[..|edges|] == edges;
  }

  /** After walking the first `j` edges of `ie` from queue `rest` and connected set `c0`, the queue has
      gained the newly seen sources in order and the connected set their nodes. */
  ghost predicate Walking(ie: seq<Edge>, j: nat, rest: seq<nat>, c0: set<nat>, q: seq<nat>, c: set<nat>) {
    && j <= |ie|
    && q == rest + FirstSeen(ie[..j], c0)
    && c == c0 + NeuralSystems.SetOf(FirstSeen(ie[..j], c0))
  }

  lemma WalkingStart(ie: seq<Edge>, rest: seq<nat>, c0: set<nat>)
    ensures Walking(ie, 0, rest, c0, rest, c0)
  {
    assert ie[..0] == [];
  }

  lemma WalkingStep(ie: seq<Edge>, j: nat, rest: seq<nat>, c0: set<nat>, q: seq<nat>, c: set<nat>, q': seq<nat>, c': set<nat>)
    requires Walking(ie, j, rest, c0, q, c) && j < |ie|
    requires c' == c + {ie[j].src} && q' == if ie[j].src in c then q else q + [ie[j].src]
    ensures Walking(ie, j + 1, rest, c0, q', c')
  {
    assert ie[..j + 1] == ie[..j] + [ie[j]];
    FirstSeenSnoc(ie[..j], ie[j], c0, c);
  }

  lemma WalkingEnd(ie: seq<Edge>, rest: seq<nat>, c0: set<nat>, q: seq<nat>, c: set<nat>)
    requires Walking(ie, |ie|, rest, c0, q, c)
    ensures q == rest + FirstSeen(ie, c0) && c == c0 + NeuralSystems.SetOf(FirstSeen(ie, c0))
  {
    assert ie[..|ie|] == ie;
  }

  /** Which target set `FirstSeen` is given matters only through its members. */
  lemma {:induction false} FirstSeenSame(edges: seq<Edge>, s1: set<nat>, s2: set<nat>)
    requires forall x :: x in s1 <==> x in s2
    ensures FirstSeen(edges, s1) == FirstSeen(edges, s2)
  {
    assert s1 == s2;
  }

  // ---- the breadth-first search ----

  /** The structure the search relies on: edges between node indices, and none into an input node,
      which the decoding of connections guarantees. */
  predicate Wired(es: seq<Edge>, shape: NsShape) {
    EdgesWithin(es, shape.NNeurons()) && forall i :: 0 <= i < |es| ==> es[i].dst >= shape.input
  }

  /** The loop invariant of the search, except closure: `queue` holds distinct non-input nodes, every
      connected node is an input or reaches an output, and `processed` holds the dequeued nodes. */
  ghost predicate Searching(es: seq<Edge>, shape: NsShape, queue: seq<nat>, connected: set<nat>, processed: set<nat>)
  {
    var n := shape.NNeurons();
    var outs := NeuralSystems.OutputNodes(shape);
    && Distinct(queue)
    && Range(0, shape.input) <= connected && outs <= connected
    && (forall x :: x in queue ==> x in connected && x >= shape.input)
    && (forall x: nat :: x in connected ==> x < n && (x < shape.input || Reaches(es, x, outs)))
    && (forall x :: x in connected && x >= shape.input <==> x in processed || x in queue)
    && (forall x :: x in processed ==> x !in queue)
  }

  /** Every edge into a node of `processed` comes from a node of `connected`. */
  predicate Closed(es: seq<Edge>, processed: set<nat>, connected: set<nat>) {
    forall i :: 0 <= i < |es| && es[i].dst in processed ==> es[i].src in connected
  }

  lemma PopFront(es: seq<Edge>, shape: NsShape, queue: seq<nat>, connected: set<nat>, processed: set<nat>)
    requires |queue| > 0 && Searching(es, shape, queue, connected, processed)
    ensures Searching(es, shape, queue[1..], connected, processed + {queue[0]})
    ensures queue[0] in connected && queue[0] >= shape.input && queue[0] !in processed
    ensures Reaches(es, queue[0], NeuralSystems.OutputNodes(shape))
  {
    var x := queue[0];
    var rest := queue[1..];
    forall i | 0 <= i < |rest|
      ensures rest[i] == queue[i + 1] && rest[i] != x
    {
      assert queue[0] != queue[i + 1];
    }
    assert forall y :: y in queue <==> y == x || y in rest;
  }

  lemma PushBack(es: seq<Edge>, shape: NsShape, queue: seq<nat>, connected: set<nat>, processed: set<nat>, x: nat)
    requires Searching(es, shape, queue, connected, processed)
    requires x !in connected && x < shape.NNeurons() && Reaches(es, x, NeuralSystems.OutputNodes(shape))
    ensures Searching(es, shape, queue + [x], connected + {x}, processed)
    ensures |connected + {x}| == |connected| + 1
  {
    assert x >= shape.input;
    assert forall y :: y in queue + [x] <==> y == x || y in queue;
  }

  lemma EdgeReaches(es: seq<Edge>, n: nat, e: Edge, targets: set<nat>)
    requires EdgesWithin(es, n) && e in es && Reaches(es, e.dst, targets)
    ensures Reaches(es, e.src, targets) && e.src < n
  {
    var i :| 0 <= i < |es| && es[i] == e;
    assert HasEdge(es, e.src, e.dst);
    ReachesStep(es, e.src, e.dst, targets);
  }

  /** One step of the inner loop: the source of an edge into a node that reaches an output is
      connected, and enqueued if it was not connected yet. */
  method Enqueue(es: seq<Edge>, shape: NsShape, queue: seq<nat>, connected: set<nat>, ghost processed: set<nat>,
                 ghost index: nat, e: Edge)
    returns (queue': seq<nat>, connected': set<nat>)
    requires Wired(es, shape) && e in es && e.dst == index
    requires Reaches(es, index, NeuralSystems.OutputNodes(shape))
    requires Searching(es, shape, queue, connected, processed)
    ensures Searching(es, shape, queue', connected', processed)
    ensures e.src in connected' && connected <= connected' && |queue'| >= |queue|
    ensures |connected'| == |connected| + (|queue'| - |queue|)
    ensures connected' == connected + {e.src}
    ensures queue' == if e.src in connected then queue else queue + [e.src]
  {
    if e.src in connected {
      queue', connected' := queue, connected;
    } else {
      EdgeReaches(es, shape.NNeurons(), e, NeuralSystems.OutputNodes(shape));
      PushBack(es, shape, queue, connected, processed, e.src);
      queue', connected' := queue + [e.src], connected + {e.src};
    }
  }

  /** The sources of the first `j` edges of `ie` lie in `c`. */
  predicate SourcesIn(ie: seq<Edge>, j: nat, c: set<nat>) {
    forall k :: 0 <= k < j && k < |ie| ==> ie[k].src in c
  }

  lemma SourcesGrow(ie: seq<Edge>, j: nat, c1: set<nat>, c2: set<nat>)
    requires j < |ie| && SourcesIn(ie, j, c1) && c1 <= c2 && ie[j].src in c2
    ensures SourcesIn(ie, j + 1, c2)
  {
  }

  lemma TakeOneMore(s: seq<Edge>, j: nat)
    requires j < |s|
    ensures s[..j + 1] == s[..j] + [s[j]]
  {
  }

  /** Once every source of the edges into `index` is connected, the closure covers `index` too. */
  lemma ClosedAfterVisit(es: seq<Edge>, processed: set<nat>, index: nat, c: set<nat>)
    requires Closed(es, processed, c) && SourcesIn(InEdges(es, index), |InEdges(es, index)|, c)
    ensures Closed(es, processed + {index}, c)
  {
    var ie := InEdges(es, index);
    InEdgesSpec(es, index);
    forall i | 0 <= i < |es| && es[i].dst in processed + {index}
      ensures es[i].src in c
    {
      if es[i].dst == index {
        var k :| 0 <= k < |ie| && ie[k] == es[i];
      }
    }
  }

  /** The inner loop: walks the incoming edges of the node at the head of the queue, collects them,
      and enqueues each source not yet connected. */
  method VisitIncoming(es: seq<Edge>, shape: NsShape, queue: seq<nat>, connected: set<nat>, ghost processed: set<nat>)
    returns (incoming: seq<Edge>, queue': seq<nat>, connected': set<nat>)
    requires Wired(es, shape) && |queue| > 0
    requires Searching(es, shape, queue, connected, processed) && Closed(es, processed, connected)
    ensures incoming == InEdges(es, queue[0])
    ensures queue' == queue[1..] + FirstSeen(incoming, connected)
    ensures connected' == connected + NeuralSystems.SetOf(FirstSeen(incoming, connected))
    ensures Searching(es, shape, queue', connected', processed + {queue[0]})
    ensures Closed(es, processed + {queue[0]}, connected')
    ensures connected <= connected' && |queue'| >= |queue| - 1
    ensures |connected'| == |connected| + (|queue'| - (|queue| - 1))
  {
    var outs := NeuralSystems.OutputNodes(shape);
    var index := queue[0];
    var ie := InEdges(es, index);
    PopFront(es, shape, queue, connected, processed);
    incoming, queue', connected' := [], queue[1..], connected;
    WalkingStart(ie, queue[1..], connected);
    var j := 0;
    while j < |ie|
      invariant 0 <= j <= |ie|
      invariant incoming == ie[..j]
      invariant connected <= connected' && |queue'| >= |queue| - 1
      invariant |connected'| == |connected| + (|queue'| - (|queue| - 1))
      invariant Searching(es, shape, queue', connected', processed + {index})
      invariant Closed(es, processed, connected')
      invariant SourcesIn(ie, j, connected')
      invariant Walking(ie, j, queue[1..], connected, queue', connected')
    {
      var e := ie[j];
      InEdgesMember(es, index, e);
      ghost var before := connected';
      ghost var waiting := queue';
      queue', connected' := Enqueue(es, shape, queue', connected', processed + {index}, index, e);
      SourcesGrow(ie, j, before, connected');
      TakeOneMore(ie, j);
      WalkingStep(ie, j, queue[1..], connected, waiting, before, queue', connected');
      incoming := incoming + [e];
      j := j + 1;
    }
    assert incoming == ie;
    WalkingEnd(ie, queue[1..], connected, queue', connected');
    ClosedAfterVisit(es, processed, index, connected');
  }

  /** The initial queue: the output nodes in index order. */
  function OutputQueue(shape: NsShape): (q: seq<nat>)
    ensures |q| == shape.output
    ensures forall i :: 0 <= i < |q| ==> q[i] == shape.input + shape.hidden + i
  {
    seq(shape.output, i requires 0 <= i < shape.output => shape.input + shape.hidden + i)
  }

  lemma SearchStart(es: seq<Edge>, shape: NsShape)
    requires Wired(es, shape)
    ensures Searching(es, shape, OutputQueue(shape), Range(0, shape.input) + NeuralSystems.OutputNodes(shape), {})
    ensures Closed(es, {}, Range(0, shape.input) + NeuralSystems.OutputNodes(shape))
  {
    var outs := NeuralSystems.OutputNodes(shape);
    var queue := OutputQueue(shape);
    var connected := Range(0, shape.input) + outs;
    forall x | x in outs
      ensures Reaches(es, x, outs)
    {
      ReachesTrivially(es, x, outs);
    }
    forall x | x in connected && x >= shape.input
      ensures x in queue
    {
      assert queue[x - (shape.input + shape.hidden)] == x;
    }
  }

  lemma SearchEnd(es: seq<Edge>, shape: NsShape, connected: set<nat>, processed: set<nat>, acc: seq<Edge>)
    requires Wired(es, shape) && Searching(es, shape, [], connected, processed) && Closed(es, processed, connected)
    requires multiset(acc) == multiset(IntoSet(es, processed))
    ensures forall x: nat :: x in connected <==>
      x < shape.input || (x < shape.NNeurons() && Reaches(es, x, NeuralSystems.OutputNodes(shape)))
    ensures multiset(acc) == multiset(IntoSet(es, connected))
  {
    var outs := NeuralSystems.OutputNodes(shape);
    forall x: nat | x < shape.NNeurons() && Reaches(es, x, outs)
      ensures x in connected
    {
      ClosedContainsReachers(es, connected, outs, x);
    }
    IntoSetSame(es, processed, connected);
  }

  /** The nodes connected before the search starts: the inputs and the outputs. */
  function Initial(shape: NsShape): set<nat> {
    Range(0, shape.input) + NeuralSystems.OutputNodes(shape)
  }

  /** The queue discipline of the search: after dequeuing `order`, everything ever enqueued (the nodes
      dequeued so far, then the waiting ones) is the outputs in index order followed by each newly
      seen source of the collected edges, in the order they were walked; `connected` holds exactly the
      initial nodes and those sources; and `acc` holds the collected edges. */
  ghost predicate Fifo(es: seq<Edge>, shape: NsShape, order: seq<nat>, queue: seq<nat>, connected: set<nat>, acc: seq<Edge>) {
    && acc == Collected(es, order)
    && order + queue == OutputQueue(shape) + FirstSeen(acc, Initial(shape))
    && connected == Initial(shape) + NeuralSystems.SetOf(FirstSeen(acc, Initial(shape)))
  }

  lemma FifoStart(es: seq<Edge>, shape: NsShape)
    ensures Fifo(es, shape, [], OutputQueue(shape), Initial(shape), [])
  {
    assert NeuralSystems.SetOf([]) == {};
  }

  /** Walking more edges from a connected set made of `init` and the sources seen so far enqueues the
      sources new to that set. */
  lemma FirstSeenStep(acc: seq<Edge>, incoming: seq<Edge>, init: set<nat>, connected: set<nat>)
    requires connected == init + NeuralSystems.SetOf(FirstSeen(acc, init))
    ensures FirstSeen(acc + incoming, init) == FirstSeen(acc, init) + FirstSeen(incoming, connected)
    ensures init + NeuralSystems.SetOf(FirstSeen(acc + incoming, init))
      == connected + NeuralSystems.SetOf(FirstSeen(incoming, connected))
  {
    var f := FirstSeen(acc, init);
    var g := FirstSeen(incoming, connected);
    FirstSeenAppend(acc, incoming, init);
    assert NeuralSystems.SetOf(f + g) == NeuralSystems.SetOf(f) + NeuralSystems.SetOf(g);
  }

  /** Moving the head of the queue to the dequeued nodes and appending to the queue keeps their
      concatenation growing by what is appended. */
  lemma Requeue(order: seq<nat>, queue: seq<nat>, pushed: seq<nat>)
    requires |queue| > 0
    ensures order + [queue[0]] + (queue[1..] + pushed) == order + queue + pushed
  {
    assert queue == [queue[0]] + queue[1..];
  }

  /** The queue part of `FifoStep`. */
  lemma FifoQueueStep(shape: NsShape, order: seq<nat>, queue: seq<nat>, connected: set<nat>, acc: seq<Edge>, incoming: seq<Edge>)
    requires |queue| > 0 && order + queue == OutputQueue(shape) + FirstSeen(acc, Initial(shape))
    requires connected == Initial(shape) + NeuralSystems.SetOf(FirstSeen(acc, Initial(shape)))
    ensures order + [queue[0]] + (queue[1..] + FirstSeen(incoming, connected))
      == OutputQueue(shape) + FirstSeen(acc + incoming, Initial(shape))
  {
    var f := FirstSeen(acc, Initial(shape));
    var g := FirstSeen(incoming, connected);
    FirstSeenStep(acc, incoming, Initial(shape), connected);
    Requeue(order, queue, g);
    assert OutputQueue(shape) + f + g == OutputQueue(shape) + (f + g);
  }

  /** Dequeuing the head and walking its incoming edges keeps the queue discipline. */
  lemma FifoStep(es: seq<Edge>, shape: NsShape, order: seq<nat>, queue: seq<nat>, connected: set<nat>, acc: seq<Edge>,
                 incoming: seq<Edge>, queue': seq<nat>, connected': set<nat>)
    requires Fifo(es, shape, order, queue, connected, acc) && |queue| > 0
    requires incoming == InEdges(es, queue[0])
    requires queue' == queue[1..] + FirstSeen(incoming, connected)
    requires connected' == connected + NeuralSystems.SetOf(FirstSeen(incoming, connected))
    ensures Fifo(es, shape, order + [queue[0]], queue', connected', acc + incoming)
  {
    CollectedSnoc(es, order, queue[0]);
    FifoQueueStep(shape, order, queue, connected, acc, incoming);
    FirstSeenStep(acc, incoming, Initial(shape), connected);
  }

  /** The invariant of the outer loop. */
  ghost predicate SearchLoop(es: seq<Edge>, shape: NsShape, queue: seq<nat>, connected: set<nat>, processed: set<nat>,
                             acc: seq<Edge>, order: seq<nat>) {
    && Searching(es, shape, queue, connected, processed) && Closed(es, processed, connected)
    && Fifo(es, shape, order, queue, connected, acc)
    && multiset(acc) == multiset(IntoSet(es, processed))
    && forall x :: x in connected ==> x < shape.NNeurons()
  }

  /** The body of the outer loop: dequeues the head, walks its incoming edges, and appends them to the
      collected edges when there are any. */
  method VisitNext(es: seq<Edge>, shape: NsShape, queue: seq<nat>, connected: set<nat>, ghost processed: set<nat>,
                   acc: seq<Edge>, ghost order: seq<nat>)
    returns (queue': seq<nat>, connected': set<nat>, acc': seq<Edge>, ghost processed': set<nat>, ghost order': seq<nat>)
    requires Wired(es, shape) && |queue| > 0
    requires SearchLoop(es, shape, queue, connected, processed, acc, order)
    ensures SearchLoop(es, shape, queue', connected', processed', acc', order')
    ensures order' == order + [queue[0]] && acc' == acc + InEdges(es, queue[0])
    ensures connected <= connected' && (|connected'| > |connected| || (|connected'| == |connected| && |queue'| < |queue|))
  {
    var index := queue[0];
    var incoming;
    incoming, queue', connected' := VisitIncoming(es, shape, queue, connected, processed);
    acc' := acc;
    if |incoming| > 0 {
      acc' := acc + incoming;
    }
    assert acc' == acc + incoming;
    LoopStep(es, shape, queue, connected, processed, acc, order, incoming, queue', connected');
    order' := order + [index];
    processed' := processed + {index};
  }

  /** Dequeuing the head and walking its incoming edges keeps the invariant of the outer loop. */
  lemma LoopStep(es: seq<Edge>, shape: NsShape, queue: seq<nat>, connected: set<nat>, processed: set<nat>,
                 acc: seq<Edge>, order: seq<nat>, incoming: seq<Edge>, queue': seq<nat>, connected': set<nat>)
    requires |queue| > 0 && SearchLoop(es, shape, queue, connected, processed, acc, order)
    requires incoming == InEdges(es, queue[0])
    requires queue' == queue[1..] + FirstSeen(incoming, connected)
    requires connected' == connected + NeuralSystems.SetOf(FirstSeen(incoming, connected))
    requires Searching(es, shape, queue', connected', processed + {queue[0]})
    requires Closed(es, processed + {queue[0]}, connected')
    ensures SearchLoop(es, shape, queue', connected', processed + {queue[0]}, acc + incoming, order + [queue[0]])
  {
    assert multiset(acc + incoming) == multiset(acc) + multiset(incoming);
    FifoStep(es, shape, order, queue, connected, acc, incoming, queue', connected');
    IntoSetAdd(es, processed, queue[0]);
  }

  /** The breadth-first search backwards from the outputs. It connects exactly the inputs and the
      nodes with a path to an output, and collects each incoming edge of a connected node once. The
      ghost `order` is the sequence of dequeued nodes: the outputs in index order, then every newly
      seen source in the order the incoming edges were walked; the collected edges are the incoming
      edges of `order`, node after node, reversed at the end. */
  method Connect(es: seq<Edge>, shape: NsShape) returns (connected: set<nat>, nodes: seq<Edge>, ghost order: seq<nat>)
    requires Wired(es, shape)
    ensures nodes == Reversed(Collected(es, order))
    ensures order == OutputQueue(shape) + FirstSeen(Collected(es, order), Initial(shape))
    ensures forall x: nat :: x in connected <==>
      x < shape.input || (x < shape.NNeurons() && Reaches(es, x, NeuralSystems.OutputNodes(shape)))
    ensures multiset(nodes) == multiset(IntoSet(es, connected))
    ensures Range(0, shape.input) <= connected && NeuralSystems.OutputNodes(shape) <= connected
    ensures forall x :: x in connected ==> x < shape.NNeurons()
  {
    var n := shape.NNeurons();
    var queue := OutputQueue(shape);
    connected := Range(0, shape.input) + NeuralSystems.OutputNodes(shape);
    ghost var processed: set<nat> := {};
    var acc: seq<Edge> := [];
    order := [];
    SearchStart(es, shape);
    IntoSetNone(es);
    FifoStart(es, shape);
    while |queue| > 0
      invariant SearchLoop(es, shape, queue, connected, processed, acc, order)
      decreases n - |connected|, |queue|
    {
      BoundedSetSize(connected, n);
      ghost var connected0, queue0 := connected, queue;
      queue, connected, acc, processed, order := VisitNext(es, shape, queue, connected, processed, acc, order);
      assert |connected| > |connected0| || (|connected| == |connected0| && |queue| < |queue0|);
    }
    assert order + [] == order;
    nodes := Reversed(acc);
    ReversedMultiset(acc);
    SearchEnd(es, shape, connected, processed, acc);
  }

  /** Every connected node reaches an output or is an input, so the collected edges join connected nodes
      and none of them enters an input. */
  lemma NodesJoinConnected(es: seq<Edge>, shape: NsShape, connected: set<nat>, nodes: seq<Edge>)
    requires Wired(es, shape)
    requires forall x: nat :: x in connected <==>
      x < shape.input || (x < shape.NNeurons() && Reaches(es, x, NeuralSystems.OutputNodes(shape)))
    requires multiset(nodes) == multiset(IntoSet(es, connected))
    ensures forall i :: 0 <= i < |nodes| ==>
      nodes[i].src in connected && nodes[i].dst in connected && nodes[i].dst >= shape.input
  {
    IntoSetSpec(es, connected);
    forall i | 0 <= i < |nodes|
      ensures nodes[i].src in connected && nodes[i].dst in connected && nodes[i].dst >= shape.input
    {
      var e := nodes[i];
      assert e in multiset(nodes);
      assert e in IntoSet(es, connected);
      var k :| 0 <= k < |es| && es[k] == e;
      EdgeReaches(es, shape.NNeurons(), e, NeuralSystems.OutputNodes(shape));
    }
  }

  // ---- classification and initial values ----

  /** Every edge into `v` is a self-loop; a node without incoming edges qualifies. */
  predicate OnlySelfLoops(es: seq<Edge>, v: nat) {
    forall i :: 0 <= i < |es| && es[i].dst == v ==> es[i].src == v
  }

  /** The test of a hidden node: no incoming neighbour at all, or a walk over the incoming neighbours
      that stops at the first one other than the node itself. */
  method IsHiddenSource(es: seq<Edge>, v: nat) returns (b: bool)
    ensures b <==> OnlySelfLoops(es, v)
  {
    var ps := Preds(es, v);
    if |ps| == 0 {
      b := true;
    } else {
      b := true;
      var j := 0;
      while j < |ps|
        invariant 0 <= j <= |ps|
        invariant b <==> forall k :: 0 <= k < j ==> ps[k] == v
        invariant !b ==> j == |ps|
      {
        if ps[j] != v {
          b := false;
          j := |ps|;
        } else {
          j := j + 1;
        }
      }
    }
    if !b {
      var k :| 0 <= k < |ps| && ps[k] != v;
      var i :| 0 <= i < |es| && es[i].src == ps[k] && es[i].dst == v;
    }
  }

  /** The sources: the inputs, and each connected hidden node whose incoming edges are all self-loops.
      Output nodes are never sources. */
  method ClassifySources(es: seq<Edge>, shape: NsShape, connected: set<nat>) returns (sources: set<nat>)
    requires forall x :: x in connected ==> x < shape.NNeurons()
    ensures forall v: nat :: v in sources <==>
      v < shape.input
      || (v in connected && shape.input <= v < shape.input + shape.hidden && OnlySelfLoops(es, v))
  {
    sources := Range(0, shape.input);
    var output := NeuralSystems.OutputNodes(shape);
    var hidden := connected - sources - output;
    var todo := connected;
    while todo != {}
      invariant todo <= connected
      invariant forall v: nat :: v in sources <==>
        v < shape.input || (v in connected - todo && v in hidden && OnlySelfLoops(es, v))
      decreases |todo|
    {
      var node :| node in todo;
      todo := todo - {node};
      assert node in hidden <==> shape.input <= node < shape.input + shape.hidden;
      if node in hidden {
        var selfConnected := IsHiddenSource(es, node);
        if selfConnected {
          sources := sources + {node};
        }
      }
    }
  }

  /** Every connected node starts at 0, except the sources, which start at 0.5. */
  method InitWeights(connected: set<nat>, sources: set<nat>) returns (weights: map<nat, real>)
    ensures weights.Keys == connected
    ensures forall v :: v in connected ==> weights[v] == if v in sources then 0.5 else 0.0
  {
    weights := map v | v in connected :: 0.0;
    var todo := sources;
    while todo != {}
      invariant todo <= sources
      invariant weights.Keys == connected
      invariant forall v :: v in connected ==> weights[v] == if v in sources - todo then 0.5 else 0.0
      decreases |todo|
    {
      var s :| s in todo;
      todo := todo - {s};
      if s in weights {
        weights := weights[s := 0.5];
      }
    }
  }

  // ---- evaluation, as functions of the value map ----

  /** The value map and the activation flags during a forward pass. */
  datatype Values = Values(w: map<nat, real>, activated: map<nat, bool>)

  /** Both maps hold the two ends of every edge. */
  predicate Covers(st: Values, nodes: seq<Edge>) {
    forall i :: 0 <= i < |nodes| ==>
      nodes[i].src in st.w && nodes[i].dst in st.w && nodes[i].src in st.activated
  }

  /** Each input node present in the map takes the corresponding input value. */
  function SetInputs(w: map<nat, real>, input: seq<real>, k: nat): (r: map<nat, real>)
    requires k <= |input|
    ensures r.Keys == w.Keys
    ensures forall v :: v in w && v < k ==> r[v] == input[v]
    ensures forall v :: v in w && k <= v ==> r[v] == w[v]
  {
    map v | v in w :: if v < k then input[v] else w[v]
  }

  /** At the start of the walk only the input nodes count as activated. */
  function ActivatedAtStart(w: map<nat, real>, shape: NsShape): (r: map<nat, bool>) {
    map v | v in w :: v < shape.input
  }

  /** One edge of the walk. Its source is squashed by `tanh`, once, unless it is already activated or
      the edge is a self-loop; a self-loop reads the value the source had before the walk. The target
      then gains the source's value times the edge weight. */
  function EdgeStep(st: Values, previous: map<nat, real>, tanh: real -> real, e: Edge): (r: Values)
    requires e.src in st.w && e.dst in st.w && e.src in st.activated && e.src in previous
    ensures r.w.Keys == st.w.Keys && r.activated.Keys == st.activated.Keys
  {
    var selfConnected := e.src == e.dst;
    var activated := st.activated[e.src] || selfConnected;
    var x0 := if selfConnected then previous[e.src] else st.w[e.src];
    var x := if activated then x0 else tanh(x0);
    var w1 := if activated then st.w else st.w[e.src := x];
    var act1 := if activated then st.activated else st.activated[e.src := true];
    Values(w1[e.dst := w1[e.dst] + NeuralSystems.Signal(e.w, x)], act1)
  }

  /** The walk over the first `k` edges of `nodes`. */
  function Walked(nodes: seq<Edge>, k: nat, st: Values, previous: map<nat, real>, tanh: real -> real): (r: Values)
    requires k <= |nodes| && Covers(st, nodes) && forall i :: 0 <= i < |nodes| ==> nodes[i].src in previous
    ensures r.w.Keys == st.w.Keys && r.activated.Keys == st.activated.Keys
  {
    if k == 0 then st
    else EdgeStep(Walked(nodes, k - 1, st, previous, tanh), previous, tanh, nodes[k - 1])
  }

  /** The walk over `k + 1` edges is one more step after the walk over `k`. */
  lemma WalkedNext(nodes: seq<Edge>, k: nat, st: Values, previous: map<nat, real>, tanh: real -> real)
    requires k < |nodes| && Covers(st, nodes) && forall i :: 0 <= i < |nodes| ==> nodes[i].src in previous
    ensures var before := Walked(nodes, k, st, previous, tanh);
      && nodes[k].src in before.w && nodes[k].dst in before.w && nodes[k].src in before.activated
      && Walked(nodes, k + 1, st, previous, tanh) == EdgeStep(before, previous, tanh, nodes[k])
  {
  }

  /** The walk over all of `nodes`, in order. */
  function Propagate(nodes: seq<Edge>, st: Values, previous: map<nat, real>, tanh: real -> real): (r: Values)
    requires Covers(st, nodes) && forall i :: 0 <= i < |nodes| ==> nodes[i].src in previous
    ensures r.w.Keys == st.w.Keys && r.activated.Keys == st.activated.Keys
  {
    Walked(nodes, |nodes|, st, previous, tanh)
  }

  /** An activated node that no edge enters keeps its value and stays activated, edge after edge. */
  lemma {:induction false} WalkedKeeps(nodes: seq<Edge>, k: nat, st: Values, previous: map<nat, real>, tanh: real -> real, v: nat)
    requires k <= |nodes| && Covers(st, nodes) && forall i :: 0 <= i < |nodes| ==> nodes[i].src in previous
    requires v in st.w && v in st.activated && st.activated[v]
    requires forall i :: 0 <= i < |nodes| ==> nodes[i].dst != v
    ensures Walked(nodes, k, st, previous, tanh).w[v] == st.w[v]
    ensures Walked(nodes, k, st, previous, tanh).activated[v]
  {
    if k > 0 {
      WalkedKeeps(nodes, k - 1, st, previous, tanh, v);
    }
  }

  /** An activated node that no edge enters keeps its value and stays activated. */
  lemma PropagateKeeps(nodes: seq<Edge>, st: Values, previous: map<nat, real>, tanh: real -> real, v: nat)
    requires Covers(st, nodes) && forall i :: 0 <= i < |nodes| ==> nodes[i].src in previous
    requires v in st.w && v in st.activated && st.activated[v]
    requires forall i :: 0 <= i < |nodes| ==> nodes[i].dst != v
    ensures Propagate(nodes, st, previous, tanh).w[v] == st.w[v]
    ensures Propagate(nodes, st, previous, tanh).activated[v]
  {
    WalkedKeeps(nodes, |nodes|, st, previous, tanh, v);
  }

  /** The output values, in node order. */
  function ReadOutputs(w: map<nat, real>, shape: NsShape): (res: seq<real>)
    requires NeuralSystems.OutputNodes(shape) <= w.Keys
    ensures |res| == shape.output
    ensures forall i :: 0 <= i < shape.output ==> res[i] == w[shape.input + shape.hidden + i]
  {
    seq(shape.output, i requires 0 <= i < shape.output => w[shape.input + shape.hidden + i])
  }

  /** Zeroes every entry that is not a source. */
  function ClearNonSources(w: map<nat, real>, sources: set<nat>): (r: map<nat, real>)
    ensures r.Keys == w.Keys
    ensures forall v :: v in w && v in sources ==> r[v] == w[v]
    ensures forall v :: v in w && v !in sources ==> r[v] == 0.0
  {
    map v | v in w :: if v in sources then w[v] else 0.0
  }

  /** The sum of `exp` over the values. */
  function SumExp(xs: seq<real>, exp: real -> real): (r: real)
    ensures (forall i :: 0 <= i < |xs| ==> exp(xs[i]) >= 0.0) ==> r >= 0.0
  {
    if |xs| == 0 then 0.0 else SumExp(xs[..|xs| - 1], exp) + exp(xs[|xs| - 1])
  }

  lemma {:induction false} SumExpPositive(xs: seq<real>, exp: real -> real)
    requires |xs| > 0 && forall i :: 0 <= i < |xs| ==> exp(xs[i]) > 0.0
    ensures SumExp(xs, exp) > 0.0
  {
    if |xs| > 1 {
      SumExpPositive(xs[..|xs| - 1], exp);
    }
  }

  /** Each value divided by the sum of the exponentials of all values. The values themselves are not
      exponentiated, so the results need not sum to one. */
  function Softmax(xs: seq<real>, exp: real -> real): (r: seq<real>)
    requires forall i :: 0 <= i < |xs| ==> exp(xs[i]) > 0.0
    ensures |r| == |xs|
  {
    if |xs| == 0 then []
    else
      SumExpPositive(xs, exp);
      var sum := SumExp(xs, exp);
      seq(|xs|, i requires 0 <= i < |xs| => xs[i] / sum)
  }

  /** Each result times the sum of exponentials gives back its value, so the sign is kept. */
  lemma {:induction false} SoftmaxScales(xs: seq<real>, exp: real -> real, i: nat)
    requires forall k :: 0 <= k < |xs| ==> exp(xs[k]) > 0.0
    requires i < |xs|
    ensures Softmax(xs, exp)[i] * SumExp(xs, exp) == xs[i]
    ensures Softmax(xs, exp)[i] > 0.0 <==> xs[i] > 0.0
    ensures Softmax(xs, exp)[i] == 0.0 <==> xs[i] == 0.0
  {
    SoftmaxAt(xs, exp, i);
    DivideByPositive(xs[i], SumExp(xs, exp), Softmax(xs, exp)[i]);
  }

  lemma {:induction false} SoftmaxAt(xs: seq<real>, exp: real -> real, i: nat)
    requires forall k :: 0 <= k < |xs| ==> exp(xs[k]) > 0.0
    requires i < |xs|
    ensures SumExp(xs, exp) > 0.0 && Softmax(xs, exp)[i] == xs[i] / SumExp(xs, exp)
  {
    SumExpPositive(xs, exp);
  }

  lemma DivideByPositive(x: real, s: real, q: real)
    requires s > 0.0 && q == x / s
    ensures q * s == x
    ensures q > 0.0 <==> x > 0.0
    ensures q == 0.0 <==> x == 0.0
  {
    if q > 0.0 {
      assert q * s > 0.0;
    } else if q < 0.0 {
      assert q * s < 0.0;
    }
  }

  /** The values after one forward pass, before the clearing: inputs set, then the walk. */
  function Evaluated(w: map<nat, real>, nodes: seq<Edge>, shape: NsShape, input: seq<real>, tanh: real -> real): (r: Values)
    requires |input| >= shape.input
    requires forall i :: 0 <= i < |nodes| ==> nodes[i].src in w && nodes[i].dst in w
    ensures r.w.Keys == w.Keys
  {
    var w1 := SetInputs(w, input, shape.input);
    Propagate(nodes, Values(w1, ActivatedAtStart(w1, shape)), w1, tanh)
  }

  /** The pass leaves each input node holding its input: no edge leads into an input node, and the
      inputs are sources, which the clearing keeps. */
  lemma EvaluatedKeepsInputs(w: map<nat, real>, nodes: seq<Edge>, shape: NsShape, input: seq<real>,
                             tanh: real -> real, sources: set<nat>)
    requires |input| >= shape.input
    requires forall i :: 0 <= i < |nodes| ==> nodes[i].src in w && nodes[i].dst in w && nodes[i].dst >= shape.input
    requires Range(0, shape.input) <= sources && sources <= w.Keys
    ensures var r := ClearNonSources(Evaluated(w, nodes, shape, input, tanh).w, sources);
      forall i :: 0 <= i < shape.input ==> i in r && r[i] == input[i]
  {
    var w1 := SetInputs(w, input, shape.input);
    forall i | 0 <= i < shape.input
      ensures Evaluated(w, nodes, shape, input, tanh).w[i] == input[i]
    {
      assert i in Range(0, shape.input);
      PropagateKeeps(nodes, Values(w1, ActivatedAtStart(w1, shape)), w1, tanh, i);
    }
  }

  lemma SetInputsStep(w: map<nat, real>, input: seq<real>, k: nat)
    requires k < |input|
    ensures SetInputs(w, input, k + 1) == if k in w then SetInputs(w, input, k)[k := input[k]] else SetInputs(w, input, k)
  {
  }

  // ---- the neural system object ----

  class NeuralSystem {
    const shape: NsShape
    /** The collected edges, in evaluation order. */
    const nodes: seq<Edge>
    /** The value of every connected node. */
    var weights: map<nat, real>
    const sources: set<nat>
    /** The nodes in the order the search dequeued them. */
    ghost const order: seq<nat>

    ghost predicate Valid()
      reads this
    {
      && (forall i :: 0 <= i < |nodes| ==>
            nodes[i].src in weights && nodes[i].dst in weights && nodes[i].dst >= shape.input)
      && Range(0, shape.input) <= sources && sources <= weights.Keys
      && NeuralSystems.OutputNodes(shape) <= weights.Keys
    }

    /** Builds the graph of the connections, finds the connected nodes and their incoming edges by the
        breadth-first search, classifies the sources and sets the initial values. */
    constructor (connections: seq<Connection>, shape: NsShape)
      requires Wired(NeuralSystems.ConnEdges(connections), shape)
      ensures Valid() && this.shape == shape
      ensures var es := NeuralSystems.ConnEdges(connections);
        && (forall v: nat :: v in weights <==>
              v < shape.input || (v < shape.NNeurons() && Reaches(es, v, NeuralSystems.OutputNodes(shape))))
        && multiset(nodes) == multiset(IntoSet(es, weights.Keys))
        && nodes == Reversed(Collected(es, order))
        && order == OutputQueue(shape) + FirstSeen(Collected(es, order), Initial(shape))
        && (forall v: nat :: v in sources <==>
              v < shape.input
              || (v in weights && shape.input <= v < shape.input + shape.hidden && OnlySelfLoops(es, v)))
        && (forall v :: v in weights ==> weights[v] == if v in sources then 0.5 else 0.0)
    {
      var es := NeuralSystems.ConnEdges(connections);
      var connected, nodes;
      ghost var order;
      connected, nodes, order := Connect(es, shape);
      NodesJoinConnected(es, shape, connected, nodes);
      var sources := ClassifySources(es, shape, connected);
      assert sources <= connected;
      var weights := InitWeights(connected, sources);
      this.shape := shape;
      this.nodes := nodes;
      this.weights := weights;
      this.sources := sources;
      this.order := order;
    }

    method SetInputsInPlace(input: seq<real>)
      requires Valid() && |input| >= shape.input
      modifies this
      ensures weights == SetInputs(old(weights), input, shape.input)
    {
      var i := 0;
      while i < shape.input
        invariant i <= shape.input
        invariant weights == SetInputs(old(weights), input, i)
      {
        SetInputsStep(old(weights), input, i);
        if i in weights {
          weights := weights[i := input[i]];
        }
        i := i + 1;
      }
    }

    /** One edge of the walk, on the values in place. */
    method StepInPlace(e: Edge, activated: map<nat, bool>, previous: map<nat, real>, tanh: real -> real)
      returns (activated': map<nat, bool>)
      requires e.src in weights && e.dst in weights && e.src in activated && e.src in previous
      modifies this
      ensures Values(weights, activated') == EdgeStep(Values(old(weights), activated), previous, tanh, e)
    {
      activated' := activated;
      var selfConnected := e.src == e.dst;
      var isActivated := activated[e.src] || selfConnected;
      var weight := if selfConnected then previous[e.src] else weights[e.src];
      if !isActivated {
        weight := tanh(weight);
        weights := weights[e.src := weight];
        activated' := activated'[e.src := true];
      }
      weights := weights[e.dst := weights[e.dst] + NeuralSystems.Signal(e.w, weight)];
      ghost var r := EdgeStep(Values(old(weights), activated), previous, tanh, e);
      assert r.w.Keys == weights.Keys;
      assert forall v :: v in weights ==> weights[v] == r.w[v];
    }

    /** The walk over the collected edges, with the activation flags as a local map. */
    method WalkInPlace(activated0: map<nat, bool>, previous: map<nat, real>, tanh: real -> real)
      requires Covers(Values(weights, activated0), nodes)
      requires forall i :: 0 <= i < |nodes| ==> nodes[i].src in previous
      modifies this
      ensures weights == Propagate(nodes, Values(old(weights), activated0), previous, tanh).w
    {
      ghost var st0 := Values(weights, activated0);
      var activated: map<nat, bool> := activated0;
      var k := 0;
      while k < |nodes|
        invariant k <= |nodes|
        invariant Values(weights, activated) == Walked(nodes, k, st0, previous, tanh)
      {
        WalkedNext(nodes, k, st0, previous, tanh);
        activated := StepInPlace(nodes[k], activated, previous, tanh);
        k := k + 1;
      }
    }

    method ReadOutputsInPlace() returns (res: seq<real>)
      requires Valid()
      ensures res == ReadOutputs(weights, shape)
    {
      var outStart := shape.input + shape.hidden;
      var outEnd := outStart + shape.output;
      res := seq(shape.output, _ => 0.0);
      var node := outStart;
      while node < outEnd
        invariant outStart <= node <= outEnd && |res| == shape.output
        invariant forall j :: 0 <= j < shape.output ==>
          res[j] == if j < node - outStart then weights[outStart + j] else 0.0
      {
        res := res[node - outStart := weights[node]];
        node := node + 1;
      }
    }

    method ClearInPlace()
      modifies this
      ensures weights == ClearNonSources(old(weights), sources)
    {
      var toClear := weights.Keys - sources;
      ghost var w0 := weights;
      while toClear != {}
        invariant toClear <= w0.Keys - sources && weights.Keys == w0.Keys
        invariant forall v :: v in w0 ==>
          weights[v] == if v in (w0.Keys - sources) - toClear then 0.0 else w0[v]
        decreases |toClear|
      {
        var v :| v in toClear;
        weights := weights[v := 0.0];
        toClear := toClear - {v};
      }
    }

    /** One forward pass: inputs set, the walk over the collected edges, the outputs read, every
        non-source value cleared, and the outputs passed through the softmax of the source. An input
        vector shorter than the input layer panics in the source. */
    method Forward(input: seq<real>, tanh: real -> real, exp: real -> real) returns (res: seq<real>)
      requires Valid() && |input| >= shape.input
      requires forall x :: exp(x) > 0.0
      modifies this
      ensures Valid() && weights.Keys == old(weights.Keys)
      ensures var st := Evaluated(old(weights), nodes, shape, input, tanh);
        res == Softmax(ReadOutputs(st.w, shape), exp) && weights == ClearNonSources(st.w, sources)
      ensures |res| == shape.output
      ensures forall v :: v in weights && v !in sources ==> weights[v] == 0.0
      ensures forall i :: 0 <= i < shape.input ==> i in weights && weights[i] == input[i]
    {
      SetInputsInPlace(input);
      var activated := ActivatedAtStart(weights, shape);
      var previous := weights;
      WalkInPlace(activated, previous, tanh);
      var outputs := ReadOutputsInPlace();
      ClearInPlace();
      res := Softmax(outputs, exp);
      EvaluatedKeepsInputs(old(weights), nodes, shape, input, tanh, sources);
    }
  }
}
