/** The current neural system (src/components/neural_system.rs): a graph of input, hidden and output
    neurons built from decoded connections, pruned to the nodes that can reach an output, and evaluated
    by a walk over a reverse depth-first post-order. */
module NeuralSystems {
  import opened Graphs
  import opened Neurons
  import opened Activations
  import opened Connections
  import Actions

  /** One edge per connection, from its input index to its output index. */
  function ConnEdges(cs: seq<Connection>): (es: seq<Edge>)
    ensures |es| == |cs|
    ensures forall i :: 0 <= i < |cs| ==> es[i] == Edge(cs[i].inIndex, cs[i].outIndex, cs[i].w)
  {
    seq(|cs|, i requires 0 <= i < |cs| => Edge(cs[i].inIndex, cs[i].outIndex, cs[i].w))
  }

  /** The output nodes occupy the last `output` indices. */
  function OutputNodes(shape: NsShape): set<nat> {
    Range(shape.input + shape.hidden, shape.NNeurons())
  }

  /** Every node of `s` is a node index and can reach `start`. */
  ghost predicate AllReach(es: seq<Edge>, n: nat, start: nat, s: seq<nat>) {
    forall i :: 0 <= i < |s| ==> s[i] < n && Reaches(es, s[i], {start})
  }

  /** The first visit of `nx`: push its undiscovered predecessors, newest edge first. */
  method PushPreds(es: seq<Edge>, n: nat, start: nat, stack: seq<nat>, discovered: set<nat>, nx: nat)
    returns (stack': seq<nat>)
    requires EdgesWithin(es, n) && nx < n && Reaches(es, nx, {start})
    requires AllReach(es, n, start, stack)
    ensures AllReach(es, n, start, stack')
    ensures forall x :: x in stack ==> x in stack'
    ensures |stack| <= |stack'| && stack'[..|stack|] == stack
    ensures forall k :: |stack| <= k < |stack'| ==> stack'[k] !in discovered && HasEdge(es, stack'[k], nx)
    ensures forall i :: 0 <= i < |es| && es[i].dst == nx ==> es[i].src in discovered || es[i].src in stack'[|stack|..]
  {
    var ps := Preds(es, nx);
    var pushed: seq<nat> := [];
    var j := 0;
    while j < |ps|
      invariant 0 <= j <= |ps|
      invariant AllReach(es, n, start, stack + pushed)
      invariant forall k :: 0 <= k < |pushed| ==> pushed[k] !in discovered && HasEdge(es, pushed[k], nx)
      invariant forall k :: 0 <= k < j ==> ps[k] in discovered || ps[k] in pushed
    {
      if ps[j] !in discovered {
        assert HasEdge(es, ps[j], nx);
        ReachesStep(es, ps[j], nx, {start});
        assert stack + (pushed + [ps[j]]) == (stack + pushed) + [ps[j]];
        pushed := pushed + [ps[j]];
      }
      j := j + 1;
    }
    stack' := stack + pushed;
    assert stack'[|stack|..] == pushed;
    forall x | x in stack ensures x in stack' {
      var i :| 0 <= i < |stack| && stack[i] == x;
      assert stack'[i] == x;
    }
  }

  /** Popping the top leaves every other node of the stack on it. */
  lemma PopKeeps(stack: seq<nat>)
    requires |stack| > 0
    ensures forall x :: x in stack && x != stack[|stack| - 1] ==> x in stack[..|stack| - 1]
  {
    forall x | x in stack && x != stack[|stack| - 1] ensures x in stack[..|stack| - 1] {
      var i :| 0 <= i < |stack| && stack[i] == x;
      assert stack[..|stack| - 1][i] == x;
    }
  }

  /** The state of the post-order search: everything on the stack or discovered reaches `start`; the
      emitted nodes are the finished ones, once each; a discovered node is finished or still on the
      stack, and so is every predecessor of a discovered node. */
  ghost predicate PostOrderState(es: seq<Edge>, n: nat, start: nat, stack: seq<nat>, discovered: set<nat>,
                                 finished: set<nat>, post: seq<nat>) {
    && AllReach(es, n, start, stack)
    && (forall x :: x in discovered ==> x < n && Reaches(es, x, {start}))
    && finished <= discovered
    && (forall x :: x in post <==> x in finished)
    && Distinct(post)
    && (forall i :: 0 <= i < |es| && es[i].dst in discovered ==> es[i].src in discovered || es[i].src in stack)
    && (forall x :: x in discovered ==> x in finished || x in stack)
    && (start in discovered || start in stack)
  }

  /** Discovering the node on top of the stack and pushing its predecessors keeps the search state. */
  lemma DiscoverStep(es: seq<Edge>, n: nat, start: nat, stack: seq<nat>, discovered: set<nat>, finished: set<nat>,
                     post: seq<nat>, stack': seq<nat>)
    requires PostOrderState(es, n, start, stack, discovered, finished, post) && |stack| > 0
    requires AllReach(es, n, start, stack') && forall x :: x in stack ==> x in stack'
    requires var nx := stack[|stack| - 1];
      forall i :: 0 <= i < |es| && es[i].dst == nx ==> es[i].src in discovered + {nx} || es[i].src in stack'
    ensures PostOrderState(es, n, start, stack', discovered + {stack[|stack| - 1]}, finished, post)
  {
    assert stack[|stack| - 1] in stack;
  }

  /** Popping a node seen before, and emitting it unless it was emitted already, keeps the search state. */
  lemma PopStep(es: seq<Edge>, n: nat, start: nat, stack: seq<nat>, discovered: set<nat>, finished: set<nat>,
                post: seq<nat>)
    requires PostOrderState(es, n, start, stack, discovered, finished, post) && |stack| > 0
    requires stack[|stack| - 1] in discovered
    ensures var nx := stack[|stack| - 1];
      PostOrderState(es, n, start, stack[..|stack| - 1], discovered,
                     if nx in finished then finished else finished + {nx},
                     if nx in finished then post else post + [nx])
  {
    PopKeeps(stack);
  }

  /** No cycle other than a self-loop: the target of an edge between two distinct nodes never reaches
      back to its source. */
  ghost predicate Acyclic(es: seq<Edge>) {
    forall i :: 0 <= i < |es| && es[i].src != es[i].dst ==> !Reaches(es, es[i].dst, {es[i].src})
  }

  /** A dependency order: every edge into a node of `order`, except a self-loop, comes from a node
      placed before it. */
  predicate Ordered(es: seq<Edge>, order: seq<nat>) {
    forall j, i :: 0 <= j < |order| && 0 <= i < |es| && es[i].dst == order[j] && es[i].src != order[j] ==>
      es[i].src in order[..j]
  }

  /** A node whose predecessors are all placed already can be placed next. */
  lemma OrderedSnoc(es: seq<Edge>, order: seq<nat>, x: nat)
    requires Ordered(es, order)
    requires forall i :: 0 <= i < |es| && es[i].dst == x && es[i].src != x ==> es[i].src in order
    ensures Ordered(es, order + [x])
  {
    var order' := order + [x];
    assert order'[..|order|] == order;
    forall j | 0 <= j < |order| ensures order'[..j] == order[..j] {
    }
  }

  /** The part of the stack above position `k`. */
  function Above(stack: seq<nat>, k: nat): seq<nat> {
    if k < |stack| then stack[k + 1..] else []
  }

  /** The gray nodes (discovered, not finished) of the search: each sits on the stack at the position
      `pos` records, where it was discovered, occurs nowhere above it, and everything above it reaches it. */
  ghost predicate GrayState(es: seq<Edge>, stack: seq<nat>, discovered: set<nat>, finished: set<nat>,
                            pos: map<nat, nat>) {
    && pos.Keys == discovered - finished
    && (forall g :: g in pos ==> pos[g] < |stack| && stack[pos[g]] == g)
    && (forall g, k :: g in pos && pos[g] < k < |stack| ==> stack[k] != g && Reaches(es, stack[k], {g}))
  }

  /** What makes the output a post-order on a graph without cycles: the emitted nodes are in dependency
      order, and every predecessor of a gray node is finished or waits on the stack above it. */
  ghost predicate OrderState(es: seq<Edge>, stack: seq<nat>, finished: set<nat>, post: seq<nat>,
                             pos: map<nat, nat>) {
    && Ordered(es, post)
    && (forall g, i :: g in pos && 0 <= i < |es| && es[i].dst == g && es[i].src != g ==>
          es[i].src in finished || es[i].src in Above(stack, pos[g]))
  }

  /** Discovering the top node makes it gray at the top position; what it pushes reaches it. */
  lemma DiscoverGray(es: seq<Edge>, stack: seq<nat>, discovered: set<nat>, finished: set<nat>,
                     pos: map<nat, nat>, stack': seq<nat>)
    requires GrayState(es, stack, discovered, finished, pos) && |stack| > 0
    requires stack[|stack| - 1] !in discovered
    requires |stack| <= |stack'| && stack'[..|stack|] == stack
    requires forall k :: |stack| <= k < |stack'| ==>
      stack'[k] !in discovered + {stack[|stack| - 1]} && HasEdge(es, stack'[k], stack[|stack| - 1])
    ensures var nx := stack[|stack| - 1];
      GrayState(es, stack', discovered + {nx}, finished - {nx}, pos[nx := |stack| - 1])
  {
    var t := |stack| - 1;
    var nx := stack[t];
    var pos' := pos[nx := t];
    assert forall k :: 0 <= k < |stack| ==> stack'[k] == stack[k] by {
      forall k | 0 <= k < |stack| ensures stack'[k] == stack[k] {
        assert stack'[..|stack|][k] == stack[k];
      }
    }
    forall g, k | g in pos' && pos'[g] < k < |stack'|
      ensures stack'[k] != g && Reaches(es, stack'[k], {g})
    {
      if g == nx {
        ReachesTrivially(es, nx, {nx});
        ReachesStep(es, stack'[k], nx, {nx});
      } else if k >= |stack| {
        ReachesStep(es, stack'[k], nx, {g});
      }
    }
  }

  /** Everything above a gray node reaches it, the top of the stack included. */
  lemma TopReachesGray(es: seq<Edge>, stack: seq<nat>, discovered: set<nat>, finished: set<nat>,
                       pos: map<nat, nat>, p: nat)
    requires GrayState(es, stack, discovered, finished, pos) && |stack| > 0
    requires stack[|stack| - 1] !in discovered
    ensures p in pos ==> Reaches(es, stack[|stack| - 1], {p})
  {
    if p in pos {
      assert stack[pos[p]] == p;
    }
  }

  /** Pushing onto the stack keeps what was above a position above it. */
  lemma AboveGrows(stack: seq<nat>, stack': seq<nat>, k: nat, x: nat)
    requires |stack| <= |stack'| && stack'[..|stack|] == stack
    requires x in Above(stack, k)
    ensures x in Above(stack', k)
  {
    var q :| 0 <= q < |Above(stack, k)| && Above(stack, k)[q] == x;
    assert stack[k + 1 + q] == x;
    assert stack'[..|stack|][k + 1 + q] == x;
    assert Above(stack', k)[q] == x;
  }

  /** On a graph without cycles, a discovered predecessor of a newly discovered node is finished
      already (a gray one would be reached from it, closing a cycle); the others were just pushed. */
  lemma NewGrayWaits(es: seq<Edge>, stack: seq<nat>, discovered: set<nat>, finished: set<nat>,
                     pos: map<nat, nat>, stack': seq<nat>, i: nat)
    requires Acyclic(es)
    requires GrayState(es, stack, discovered, finished, pos)
    requires |stack| > 0 && stack[|stack| - 1] !in discovered && |stack| <= |stack'|
    requires var nx := stack[|stack| - 1];
      0 <= i < |es| && es[i].dst == nx && es[i].src != nx &&
      (es[i].src in discovered + {nx} || es[i].src in stack'[|stack|..])
    ensures es[i].src in finished || es[i].src in Above(stack', |stack| - 1)
  {
    assert stack'[|stack|..] == Above(stack', |stack| - 1);
    TopReachesGray(es, stack, discovered, finished, pos, es[i].src);
  }

  /** Discovering the top node keeps the order state. */
  lemma DiscoverOrder(es: seq<Edge>, stack: seq<nat>, discovered: set<nat>, finished: set<nat>,
                      post: seq<nat>, pos: map<nat, nat>, stack': seq<nat>)
    requires Acyclic(es)
    requires GrayState(es, stack, discovered, finished, pos) && OrderState(es, stack, finished, post, pos)
    requires |stack| > 0 && stack[|stack| - 1] !in discovered
    requires |stack| <= |stack'| && stack'[..|stack|] == stack
    requires var nx := stack[|stack| - 1];
      forall i :: 0 <= i < |es| && es[i].dst == nx ==> es[i].src in discovered + {nx} || es[i].src in stack'[|stack|..]
    ensures var nx := stack[|stack| - 1];
      OrderState(es, stack', finished, post, pos[nx := |stack| - 1])
  {
    var t := |stack| - 1;
    var nx := stack[t];
    var pos' := pos[nx := t];
    forall g, i | g in pos' && 0 <= i < |es| && es[i].dst == g && es[i].src != g
      ensures es[i].src in finished || es[i].src in Above(stack', pos'[g])
    {
      if g == nx {
        NewGrayWaits(es, stack, discovered, finished, pos, stack', i);
      } else if es[i].src !in finished {
        AboveGrows(stack, stack', pos[g], es[i].src);
      }
    }
  }

  /** Popping the top node finishes it; a gray one was at its own position, with nothing above it. */
  lemma PopGray(es: seq<Edge>, stack: seq<nat>, discovered: set<nat>, finished: set<nat>, pos: map<nat, nat>)
    requires GrayState(es, stack, discovered, finished, pos) && |stack| > 0
    requires finished <= discovered && stack[|stack| - 1] in discovered
    ensures var nx := stack[|stack| - 1];
      && (nx !in finished ==> nx in pos && pos[nx] == |stack| - 1)
      && GrayState(es, stack[..|stack| - 1], discovered, finished + {nx}, pos - {nx})
  {
    var t := |stack| - 1;
    var nx := stack[t];
    assert nx !in finished ==> nx in pos;
    forall g | g in pos - {nx} ensures pos[g] < t {
      assert stack[pos[g]] == g;
    }
  }

  /** Popping the top node keeps the order state, and a gray top node can be emitted: every predecessor
      other than itself is finished. */
  lemma PopOrder(es: seq<Edge>, stack: seq<nat>, finished: set<nat>, post: seq<nat>, pos: map<nat, nat>)
    requires OrderState(es, stack, finished, post, pos) && |stack| > 0
    requires forall x :: x in post <==> x in finished
    requires var nx := stack[|stack| - 1]; nx !in finished ==> nx in pos && pos[nx] == |stack| - 1
    requires forall g :: g in pos - {stack[|stack| - 1]} ==> pos[g] < |stack| - 1
    ensures var nx := stack[|stack| - 1];
      OrderState(es, stack[..|stack| - 1], finished + {nx}, if nx in finished then post else post + [nx], pos - {nx})
  {
    var t := |stack| - 1;
    var nx := stack[t];
    var stack' := stack[..t];
    if nx !in finished {
      assert Above(stack, t) == [];
      OrderedSnoc(es, post, nx);
    }
    forall g, i | g in pos - {nx} && 0 <= i < |es| && es[i].dst == g && es[i].src != g
      ensures es[i].src in finished + {nx} || es[i].src in Above(stack', pos[g])
    {
      var p := es[i].src;
      if p !in finished && p != nx {
        var q :| 0 <= q < |Above(stack, pos[g])| && Above(stack, pos[g])[q] == p;
        assert stack[pos[g] + 1 + q] == p;
        assert Above(stack', pos[g])[q] == p;
      }
    }
  }

  /** The whole state of the post-order search. */
  ghost predicate SearchState(es: seq<Edge>, n: nat, start: nat, stack: seq<nat>, discovered: set<nat>,
                              finished: set<nat>, post: seq<nat>, pos: map<nat, nat>) {
    && PostOrderState(es, n, start, stack, discovered, finished, post)
    && GrayState(es, stack, discovered, finished, pos)
    && (Acyclic(es) ==> OrderState(es, stack, finished, post, pos))
  }

  /** The first visit of the top node keeps the search state. */
  lemma Discover(es: seq<Edge>, n: nat, start: nat, stack: seq<nat>, discovered: set<nat>, finished: set<nat>,
                 post: seq<nat>, pos: map<nat, nat>, stack': seq<nat>)
    requires SearchState(es, n, start, stack, discovered, finished, post, pos)
    requires |stack| > 0 && stack[|stack| - 1] !in discovered
    requires AllReach(es, n, start, stack') && forall x :: x in stack ==> x in stack'
    requires |stack| <= |stack'| && stack'[..|stack|] == stack
    requires var nx := stack[|stack| - 1];
      forall k :: |stack| <= k < |stack'| ==> stack'[k] !in discovered + {nx} && HasEdge(es, stack'[k], nx)
    requires var nx := stack[|stack| - 1];
      forall i :: 0 <= i < |es| && es[i].dst == nx ==> es[i].src in discovered + {nx} || es[i].src in stack'[|stack|..]
    ensures var nx := stack[|stack| - 1];
      SearchState(es, n, start, stack', discovered + {nx}, finished, post, pos[nx := |stack| - 1])
  {
    var nx := stack[|stack| - 1];
    forall i | 0 <= i < |es| && es[i].dst == nx ensures es[i].src in discovered + {nx} || es[i].src in stack' {
      if es[i].src !in discovered + {nx} {
        var q :| 0 <= q < |stack'[|stack|..]| && stack'[|stack|..][q] == es[i].src;
        assert stack'[|stack| + q] == es[i].src;
      }
    }
    DiscoverStep(es, n, start, stack, discovered, finished, post, stack');
    DiscoverGray(es, stack, discovered, finished, pos, stack');
    assert finished - {nx} == finished;
    if Acyclic(es) {
      DiscoverOrder(es, stack, discovered, finished, post, pos, stack');
    }
  }

  /** Popping a discovered top node, and emitting it unless it was emitted already, keeps the search state. */
  lemma Pop(es: seq<Edge>, n: nat, start: nat, stack: seq<nat>, discovered: set<nat>, finished: set<nat>,
            post: seq<nat>, pos: map<nat, nat>)
    requires SearchState(es, n, start, stack, discovered, finished, post, pos)
    requires |stack| > 0 && stack[|stack| - 1] in discovered
    ensures var nx := stack[|stack| - 1];
      SearchState(es, n, start, stack[..|stack| - 1], discovered,
                  if nx in finished then finished else finished + {nx},
                  if nx in finished then post else post + [nx], pos - {nx})
  {
    var nx := stack[|stack| - 1];
    PopStep(es, n, start, stack, discovered, finished, post);
    PopGray(es, stack, discovered, finished, pos);
    assert (if nx in finished then finished else finished + {nx}) == finished + {nx};
    if Acyclic(es) {
      PopOrder(es, stack, finished, post, pos);
    }
  }

  /** A post-order depth-first search from `start` over the reversed graph, with the explicit stack of
      the graph library: a node seen for the first time stays on the stack and pushes its undiscovered
      predecessors (newest edge first, so the oldest is explored first); a node seen again is popped
      and emitted if it was not emitted yet. It emits exactly the nodes from which `start` is reachable. */
  method DfsPostOrder(es: seq<Edge>, n: nat, start: nat) returns (post: seq<nat>)
    requires EdgesWithin(es, n) && start < n
    ensures Distinct(post)
    ensures forall x :: x in post ==> x < n
    ensures forall x: nat :: x in post <==> x < n && Reaches(es, x, {start})
    ensures Acyclic(es) ==> Ordered(es, post)
  {
    var stack: seq<nat> := [start];
    var discovered: set<nat> := {};
    var finished: set<nat> := {};
    ghost var pos: map<nat, nat> := map[];
    post := [];
    ReachesTrivially(es, start, {start});
    while |stack| > 0
      invariant SearchState(es, n, start, stack, discovered, finished, post, pos)
      invariant |discovered| <= n
      decreases n - |discovered|, |stack|
    {
      var nx := stack[|stack| - 1];
      if nx !in discovered {
        var discovered' := discovered + {nx};
        BoundedSetSize(discovered', n);
        var stack' := PushPreds(es, n, start, stack, discovered', nx);
        Discover(es, n, start, stack, discovered, finished, post, pos, stack');
        discovered, stack, pos := discovered', stack', pos[nx := |stack| - 1];
      } else {
        Pop(es, n, start, stack, discovered, finished, post, pos);
        stack, pos := stack[..|stack| - 1], pos - {nx};
        if nx !in finished {
          finished := finished + {nx};
          post := post + [nx];
        }
      }
    }
    forall x: nat | x < n && Reaches(es, x, {start})
      ensures x in post
    {
      ClosedContainsReachers(es, discovered, {start}, x);
    }
  }

  /** The next node of a search joins the execution order in dependency order when everything the
      search emitted before it is placed already. */
  lemma PlaceNext(es: seq<Edge>, nodes: seq<nat>, post: seq<nat>, k: nat)
    requires Ordered(es, nodes) && Ordered(es, post) && k < |post|
    requires forall x :: x in post[..k] ==> x in nodes
    ensures Ordered(es, nodes + [post[k]])
  {
    OrderedSnoc(es, nodes, post[k]);
  }

  /** The execution order: for each output in turn, the post-order of a fresh search from it, keeping
      only the first occurrence of each node. It holds every node that can reach an output, once. */
  method ExecutionOrder(es: seq<Edge>, shape: NsShape) returns (nodes: seq<nat>)
    requires EdgesWithin(es, shape.NNeurons())
    ensures Distinct(nodes)
    ensures forall x: nat :: x in nodes <==> x < shape.NNeurons() && Reaches(es, x, OutputNodes(shape))
    ensures Acyclic(es) ==> Ordered(es, nodes)
  {
    var n := shape.NNeurons();
    var outStart := shape.input + shape.hidden;
    var visited: set<nat> := {};
    nodes := [];
    var o := outStart;
    while o < n
      invariant outStart <= o <= n
      invariant Distinct(nodes)
      invariant forall x :: x in nodes <==> x in visited
      invariant forall x: nat :: x in visited <==> x < n && Reaches(es, x, Range(outStart, o))
      invariant Acyclic(es) ==> Ordered(es, nodes)
    {
      var post := DfsPostOrder(es, n, o);
      var k := 0;
      while k < |post|
        invariant 0 <= k <= |post|
        invariant Distinct(nodes)
        invariant forall x :: x in nodes <==> x in visited
        invariant forall x: nat :: x in visited <==> (x < n && Reaches(es, x, Range(outStart, o))) || x in post[..k]
        invariant Acyclic(es) ==> Ordered(es, nodes)
      {
        assert post[..k + 1] == post[..k] + [post[k]];
        if post[k] !in visited {
          if Acyclic(es) {
            PlaceNext(es, nodes, post, k);
          }
          visited := visited + {post[k]};
          nodes := nodes + [post[k]];
        }
        k := k + 1;
      }
      assert post[..k] == post;
      forall x: nat
        ensures Reaches(es, x, Range(outStart, o + 1)) <==> Reaches(es, x, Range(outStart, o)) || Reaches(es, x, {o})
      {
        assert Range(outStart, o + 1) == Range(outStart, o) + {o};
        ReachesUnion(es, x, Range(outStart, o), {o});
      }
      o := o + 1;
    }
  }

  // ---- pruning and classification ----

  function SetOf(s: seq<nat>): (r: set<nat>)
    ensures forall x :: x in r <==> x in s
  {
    set x | x in s
  }

  /** The nodes left in the graph: the execution order and every input. */
  function KeptNodes(nodes: seq<nat>, input: nat): set<nat> {
    SetOf(nodes) + Range(0, input)
  }

  /** Removing a node removes its edges: what is left joins kept nodes, in the original order. */
  function PrunedEdges(es: seq<Edge>, nodes: seq<nat>, input: nat): (r: seq<Edge>)
    ensures forall e :: e in r <==>
      e in es && (e.src in nodes || e.src < input) && (e.dst in nodes || e.dst < input)
  {
    var keep := KeptNodes(nodes, input);
    var r := FilterEdges(es, keep);
    assert forall e :: e in r ==> e in es && e.src in keep && e.dst in keep by {
      forall e | e in r ensures e in es && e.src in keep && e.dst in keep {
        var i :| 0 <= i < |r| && r[i] == e;
      }
    }
    r
  }

  /** Inputs, and the nodes of the execution order whose incoming edges (if any) are all self-loops. */
  function SourceNodes(pruned: seq<Edge>, nodes: seq<nat>, input: nat): set<nat> {
    Range(0, input) + set v | v in nodes && CountSelf(pruned, v) == CountIn(pruned, v)
  }

  /** The nodes of the execution order with at least one self-loop. */
  function SelfConnectedNodes(pruned: seq<Edge>, nodes: seq<nat>): set<nat> {
    set v | v in nodes && CountSelf(pruned, v) > 0
  }

  /** The hidden neurons flagged as memory, at their global indices. */
  function MemoryNodes(neurons: seq<(bool, Neuron)>, input: nat): set<nat> {
    set i | 0 <= i < |neurons| && neurons[i].0 :: input + i
  }

  /** The node set the execution order must hold: everything that can reach an output. */
  ghost predicate IsExecutionSet(es: seq<Edge>, shape: NsShape, nodes: seq<nat>) {
    forall x: nat :: x in nodes <==> x < shape.NNeurons() && Reaches(es, x, OutputNodes(shape))
  }

  /** The classification loop: a node without incoming edges is a source; otherwise it is
      self-connected when some incoming edge is a self-loop, and a source when all are. */
  method Classify(pruned: seq<Edge>, nodes: seq<nat>, input: nat) returns (sources: set<nat>, selfConnected: set<nat>)
    ensures sources == SourceNodes(pruned, nodes, input)
    ensures selfConnected == SelfConnectedNodes(pruned, nodes)
  {
    sources := Range(0, input);
    selfConnected := {};
    var k := 0;
    while k < |nodes|
      invariant 0 <= k <= |nodes|
      invariant sources == SourceNodes(pruned, nodes[..k], input)
      invariant selfConnected == SelfConnectedNodes(pruned, nodes[..k])
    {
      var v := nodes[k];
      assert nodes[..k + 1] == nodes[..k] + [v];
      ClassifiedSnoc(pruned, nodes[..k], v, input);
      var nIncoming := CountIn(pruned, v);
      if nIncoming == 0 {
        sources := sources + {v};
      } else {
        var nSelf := CountSelf(pruned, v);
        if nSelf > 0 {
          selfConnected := selfConnected + {v};
        }
        if nSelf == nIncoming {
          sources := sources + {v};
        }
      }
      k := k + 1;
    }
    assert nodes[..k] == nodes;
  }

  /** One more node of the execution order joins the sources and the self-connected nodes it belongs to. */
  lemma ClassifiedSnoc(pruned: seq<Edge>, nodes: seq<nat>, v: nat, input: nat)
    ensures SourceNodes(pruned, nodes + [v], input)
      == SourceNodes(pruned, nodes, input) + (if CountSelf(pruned, v) == CountIn(pruned, v) then {v} else {})
    ensures SelfConnectedNodes(pruned, nodes + [v])
      == SelfConnectedNodes(pruned, nodes) + (if CountSelf(pruned, v) > 0 then {v} else {})
  {
  }

  /** Appending an edge adds it to the counts it belongs to. */
  lemma CountsSnoc(es: seq<Edge>, e: Edge, v: nat)
    ensures CountIn(es + [e], v) == CountIn(es, v) + (if e.dst == v then 1 else 0)
    ensures CountSelf(es + [e], v) == CountSelf(es, v) + (if e.dst == v && e.src == v then 1 else 0)
  {
    assert (es + [e])[..|es|] == es;
  }

  /** An edge into a node that reaches an output comes from a node that reaches an output,
      so pruning keeps every edge into the execution order. */
  lemma {:induction false} PrunedCountsAgree(es: seq<Edge>, keep: set<nat>, v: nat)
    requires v in keep
    requires forall i :: 0 <= i < |es| && es[i].dst == v ==> es[i].src in keep
    ensures CountIn(FilterEdges(es, keep), v) == CountIn(es, v)
    ensures CountSelf(FilterEdges(es, keep), v) == CountSelf(es, v)
  {
    if |es| > 0 {
      var init := es[..|es| - 1];
      var last := es[|es| - 1];
      assert forall i :: 0 <= i < |init| && init[i].dst == v ==> init[i].src in keep by {
        forall i | 0 <= i < |init| && init[i].dst == v ensures init[i].src in keep {
          assert init[i] == es[i];
        }
      }
      PrunedCountsAgree(init, keep, v);
      var rest := FilterEdges(init, keep);
      if last.src in keep && last.dst in keep {
        assert FilterEdges(es, keep) == rest + [last];
        CountsSnoc(rest, last, v);
      } else {
        assert FilterEdges(es, keep) == rest;
        assert last.dst != v;
      }
    }
  }

  lemma IncomingOfExecutionSet(es: seq<Edge>, shape: NsShape, nodes: seq<nat>, v: nat)
    requires EdgesWithin(es, shape.NNeurons()) && IsExecutionSet(es, shape, nodes) && v in nodes
    ensures forall i :: 0 <= i < |es| && es[i].dst == v ==> es[i].src in KeptNodes(nodes, shape.input)
  {
    forall i | 0 <= i < |es| && es[i].dst == v
      ensures es[i].src in KeptNodes(nodes, shape.input)
    {
      assert HasEdge(es, es[i].src, v);
      ReachesStep(es, es[i].src, v, OutputNodes(shape));
    }
  }

  /** A node is a source exactly when it is an input, or it can reach an output and every edge into it
      in the unpruned graph is a self-loop (vacuously so when there is none). */
  lemma SourcesCharacterised(es: seq<Edge>, shape: NsShape, nodes: seq<nat>, v: nat)
    requires EdgesWithin(es, shape.NNeurons()) && IsExecutionSet(es, shape, nodes)
    ensures v in SourceNodes(PrunedEdges(es, nodes, shape.input), nodes, shape.input) <==>
      v < shape.input || (v in nodes && forall i :: 0 <= i < |es| && es[i].dst == v ==> es[i].src == v)
  {
    if v in nodes {
      IncomingOfExecutionSet(es, shape, nodes, v);
      PrunedCountsAgree(es, KeptNodes(nodes, shape.input), v);
      CountSelfAll(es, v);
    }
  }

  /** A node is self-connected exactly when it can reach an output and carries a self-loop. */
  lemma SelfConnectedCharacterised(es: seq<Edge>, shape: NsShape, nodes: seq<nat>, v: nat)
    requires EdgesWithin(es, shape.NNeurons()) && IsExecutionSet(es, shape, nodes)
    ensures v in SelfConnectedNodes(PrunedEdges(es, nodes, shape.input), nodes) <==>
      v in nodes && exists i :: 0 <= i < |es| && es[i].dst == v && es[i].src == v
  {
    if v in nodes {
      IncomingOfExecutionSet(es, shape, nodes, v);
      PrunedCountsAgree(es, KeptNodes(nodes, shape.input), v);
      CountSelfPositive(es, v);
    }
  }

  // ---- the constructed system ----

  /** What `new` computes besides the neuron values: shape, pruned edges, execution order and the
      three node classes. */
  datatype Structure = Structure(
    shape: NsShape,
    edges: seq<Edge>,
    nodes: seq<nat>,
    sources: set<nat>,
    selfConnected: set<nat>,
    nodesToClear: set<nat>)

  predicate WellFormed(s: Structure) {
    && EdgesWithin(s.edges, s.shape.NNeurons())
    && (forall x :: x in s.nodes ==> x < s.shape.NNeurons())
    && (forall x :: x in s.sources ==> x < s.shape.NNeurons())
    && (forall x :: x in s.selfConnected ==> x < s.shape.NNeurons())
    && (forall x :: x in s.nodesToClear ==> x < s.shape.NNeurons())
  }

  /** `s` is the structure built from the edges `es` with the memory nodes `memory`. */
  ghost predicate Built(s: Structure, es: seq<Edge>, memory: set<nat>) {
    && IsExecutionSet(es, s.shape, s.nodes) && Distinct(s.nodes)
    && (Acyclic(es) ==> Ordered(es, s.nodes))
    && s.edges == PrunedEdges(es, s.nodes, s.shape.input)
    && s.sources == SourceNodes(s.edges, s.nodes, s.shape.input)
    && s.selfConnected == SelfConnectedNodes(s.edges, s.nodes)
    && s.nodesToClear == SetOf(s.nodes) - s.sources - memory
  }

  /** Input neurons at threshold 0 (the identity activation of the source, `None` here), then the
      hidden neurons as given, then output neurons at threshold 0 with tanh. */
  function InitialNeurons(neurons: seq<(bool, Neuron)>, shape: NsShape): (st: seq<Neuron>)
    requires |neurons| == shape.hidden
    ensures |st| == shape.NNeurons()
  {
    seq(shape.NNeurons(), i requires 0 <= i < shape.NNeurons() =>
      if i < shape.input then New(0.0, Activation.None)
      else if i < shape.input + shape.hidden then neurons[i - shape.input].1
      else New(0.0, Tanh))
  }

  /** Graph construction, pruning and classification. */
  method Build(neurons: seq<(bool, Neuron)>, connections: seq<Connection>, shape: NsShape) returns (s: Structure)
    requires EdgesWithin(ConnEdges(connections), shape.NNeurons())
    ensures s.shape == shape && WellFormed(s)
    ensures Built(s, ConnEdges(connections), MemoryNodes(neurons, shape.input))
  {
    var es := ConnEdges(connections);
    var nodes := ExecutionOrder(es, shape);
    var pruned := PrunedEdges(es, nodes, shape.input);
    var sources, selfConnected := Classify(pruned, nodes, shape.input);
    var nodesToClear := SetOf(nodes) - sources - MemoryNodes(neurons, shape.input);
    s := Structure(shape, pruned, nodes, sources, selfConnected, nodesToClear);
  }

  // ---- evaluation, as functions of the neuron values ----

  datatype EdgeSelection = AllEdges | SelfEdges | OtherEdges

  /** `e` leaves `v` and is of the selected kind. */
  predicate Selected(sel: EdgeSelection, e: Edge, v: nat) {
    e.src == v &&
    match sel
    case AllEdges => true
    case SelfEdges => e.dst == v
    case OtherEdges => e.dst != v
  }

  /** The summed weight of the selected edges from `v` into `j`. */
  function WeightInto(es: seq<Edge>, v: nat, sel: EdgeSelection, j: nat): real {
    if |es| == 0 then 0.0
    else WeightInto(es[..|es| - 1], v, sel, j)
         + (if Selected(sel, es[|es| - 1], v) && es[|es| - 1].dst == j then es[|es| - 1].w else 0.0)
  }

  /** What an edge of weight `w` adds to its target when its source sends `x`. */
  function Signal(w: real, x: real): real { w * x }

  /** The target of `e` gains `x` times the edge weight. */
  function Bump(st: seq<Neuron>, e: Edge, x: real): (r: seq<Neuron>)
    requires e.dst < |st|
    ensures |r| == |st| && r[e.dst] == st[e.dst].(value := st[e.dst].value + Signal(e.w, x))
    ensures forall j :: 0 <= j < |st| && j != e.dst ==> r[j] == st[j]
  {
    st[e.dst := st[e.dst].(value := st[e.dst].value + Signal(e.w, x))]
  }

  /** Propagation of `x` out of `v`: each selected edge adds `w * x` to the value of its target. */
  function AddAlong(st: seq<Neuron>, es: seq<Edge>, v: nat, sel: EdgeSelection, x: real): (r: seq<Neuron>)
    requires EdgesWithin(es, |st|)
    ensures |r| == |st|
    ensures forall j :: 0 <= j < |st| ==> r[j].w == st[j].w && r[j].activation == st[j].activation
  {
    if |es| == 0 then st
    else
      var r0 := AddAlong(st, es[..|es| - 1], v, sel, x);
      var e := es[|es| - 1];
      if Selected(sel, e, v) then Bump(r0, e, x) else r0
  }

  lemma {:induction false} AddAlongSnoc(st: seq<Neuron>, es: seq<Edge>, e: Edge, v: nat, sel: EdgeSelection, x: real)
    requires EdgesWithin(es, |st|) && e.dst < |st| && EdgesWithin(es + [e], |st|)
    ensures var r0 := AddAlong(st, es, v, sel, x);
      AddAlong(st, es + [e], v, sel, x)
        == if Selected(sel, e, v) then Bump(r0, e, x) else r0
  {
    var es' := es + [e];
    assert es'[..|es'| - 1] == es;
    assert es'[|es'| - 1] == e;
  }

  lemma SignalDistributes(a: real, w: real, x: real)
    ensures Signal(a + w, x) == Signal(a, x) + Signal(w, x)
  {
  }

  /** Propagation adds to each node exactly `x` times the summed weight of the selected edges into it. */
  lemma {:induction false} AddAlongValue(st: seq<Neuron>, es: seq<Edge>, v: nat, sel: EdgeSelection, x: real, j: nat)
    requires EdgesWithin(es, |st|) && j < |st|
    ensures AddAlong(st, es, v, sel, x)[j].value == st[j].value + Signal(WeightInto(es, v, sel, j), x)
  {
    if |es| > 0 {
      var init := es[..|es| - 1];
      var e := es[|es| - 1];
      assert EdgesWithin(init, |st|) by {
        forall i | 0 <= i < |init| ensures init[i].src < |st| && init[i].dst < |st| {
          assert init[i] == es[i];
        }
      }
      AddAlongValue(st, init, v, sel, x, j);
      var r0 := AddAlong(st, init, v, sel, x);
      var w0 := WeightInto(init, v, sel, j);
      var hit := Selected(sel, e, v) && e.dst == j;
      assert AddAlong(st, es, v, sel, x)[j].value == r0[j].value + (if hit then Signal(e.w, x) else 0.0);
      assert WeightInto(es, v, sel, j) == w0 + (if hit then e.w else 0.0);
      SignalDistributes(w0, if hit then e.w else 0.0, x);
    }
  }

  /** A node no selected edge enters keeps its neuron. */
  lemma {:induction false} AddAlongUntargeted(st: seq<Neuron>, es: seq<Edge>, v: nat, sel: EdgeSelection, x: real, j: nat)
    requires EdgesWithin(es, |st|) && j < |st|
    requires forall i :: 0 <= i < |es| && Selected(sel, es[i], v) ==> es[i].dst != j
    ensures AddAlong(st, es, v, sel, x)[j] == st[j]
  {
    if |es| > 0 {
      var init := es[..|es| - 1];
      assert forall i :: 0 <= i < |init| ==> init[i] == es[i];
      AddAlongUntargeted(st, init, v, sel, x, j);
    }
  }

  /** Sets each input source to its input and every other source to its own threshold. */
  function Reset(s: Structure, st: seq<Neuron>, input: seq<real>): (r: seq<Neuron>)
    requires |input| >= s.shape.input
    ensures |r| == |st|
  {
    seq(|st|, j requires 0 <= j < |st| =>
      if j in s.sources then st[j].(value := if j < s.shape.input then input[j] else st[j].w) else st[j])
  }

  /** The values of the self-connected nodes, taken after the reset. */
  function Snapshot(s: Structure, st: seq<Neuron>): (snap: map<nat, real>)
    requires WellFormed(s) && |st| == s.shape.NNeurons()
    ensures snap.Keys == s.selfConnected
  {
    map v | v in s.selfConnected :: st[v].value
  }

  /** Zeroes the nodes to clear. */
  function Clear(s: Structure, st: seq<Neuron>): (r: seq<Neuron>)
    ensures |r| == |st|
  {
    seq(|st|, j requires 0 <= j < |st| => if j in s.nodesToClear then st[j].(value := 0.0) else st[j])
  }

  /** One node of the walk. A self-connected node first adds its self-loops times the snapshot, fires,
      and sends the result along its other edges; any other node fires unless it is a source, and sends
      its value along all its edges. */
  function Step(s: Structure, act: ActivationFn, snap: map<nat, real>, st: seq<Neuron>, v: nat): (r: seq<Neuron>)
    requires WellFormed(s) && |st| == s.shape.NNeurons() && v < |st|
    requires s.selfConnected <= snap.Keys
    ensures |r| == |st|
  {
    if v in s.selfConnected then
      var withSelf := AddAlong(st, s.edges, v, SelfEdges, snap[v]);
      var fired := Fire(withSelf[v], act);
      AddAlong(withSelf[v := fired.0], s.edges, v, OtherEdges, fired.1)
    else if v !in s.sources then
      var fired := Fire(st[v], act);
      AddAlong(st[v := fired.0], s.edges, v, AllEdges, fired.1)
    else
      AddAlong(st, s.edges, v, AllEdges, st[v].value)
  }

  /** The first `k` steps of the execution order. */
  function Walk(s: Structure, act: ActivationFn, snap: map<nat, real>, st: seq<Neuron>, k: nat): (r: seq<Neuron>)
    requires WellFormed(s) && |st| == s.shape.NNeurons() && k <= |s.nodes|
    requires s.selfConnected <= snap.Keys
    ensures |r| == |st|
  {
    if k == 0 then st
    else
      assert s.nodes[k - 1] in s.nodes;
      Step(s, act, snap, Walk(s, act, snap, st, k - 1), s.nodes[k - 1])
  }

  /** The neuron values after one forward pass. */
  function ForwardState(s: Structure, act: ActivationFn, st: seq<Neuron>, input: seq<real>): (r: seq<Neuron>)
    requires WellFormed(s) && |st| == s.shape.NNeurons() && |input| >= s.shape.input
    ensures |r| == |st|
  {
    var reset := Reset(s, st, input);
    Walk(s, act, Snapshot(s, reset), Clear(s, reset), |s.nodes|)
  }

  /** The values of the output nodes, in order. */
  function Outputs(s: Structure, st: seq<Neuron>): (res: seq<real>)
    requires |st| == s.shape.NNeurons()
    ensures |res| == s.shape.output
    ensures forall i :: 0 <= i < |res| ==> res[i] == st[s.shape.input + s.shape.hidden + i].value
  {
    seq(s.shape.output, i requires 0 <= i < s.shape.output => st[s.shape.input + s.shape.hidden + i].value)
  }

  // ---- properties of one forward pass ----

  /** A step leaves a node alone when no edge enters it and the step is not its own firing. */
  lemma StepKeeps(s: Structure, act: ActivationFn, snap: map<nat, real>, st: seq<Neuron>, v: nat, u: nat)
    requires WellFormed(s) && |st| == s.shape.NNeurons() && v < |st| && u < |st|
    requires s.selfConnected <= snap.Keys
    requires forall i :: 0 <= i < |s.edges| ==> s.edges[i].dst != u
    requires v == u ==> u in s.sources && u !in s.selfConnected
    ensures Step(s, act, snap, st, v)[u] == st[u]
  {
    if v in s.selfConnected {
      var withSelf := AddAlong(st, s.edges, v, SelfEdges, snap[v]);
      AddAlongUntargeted(st, s.edges, v, SelfEdges, snap[v], u);
      var fired := Fire(withSelf[v], act);
      AddAlongUntargeted(withSelf[v := fired.0], s.edges, v, OtherEdges, fired.1, u);
    } else if v !in s.sources {
      var fired := Fire(st[v], act);
      AddAlongUntargeted(st[v := fired.0], s.edges, v, AllEdges, fired.1, u);
    } else {
      AddAlongUntargeted(st, s.edges, v, AllEdges, st[v].value, u);
    }
  }

  /** The walk leaves alone a node no edge enters that is a source without self-loops. */
  lemma {:induction false} WalkKeeps(s: Structure, act: ActivationFn, snap: map<nat, real>, st: seq<Neuron>, k: nat, u: nat)
    requires WellFormed(s) && |st| == s.shape.NNeurons() && k <= |s.nodes| && u < |st|
    requires s.selfConnected <= snap.Keys
    requires forall i :: 0 <= i < |s.edges| ==> s.edges[i].dst != u
    requires u in s.sources && u !in s.selfConnected
    ensures Walk(s, act, snap, st, k)[u] == st[u]
  {
    if k > 0 {
      WalkKeeps(s, act, snap, st, k - 1, u);
      assert s.nodes[k - 1] in s.nodes;
      StepKeeps(s, act, snap, Walk(s, act, snap, st, k - 1), s.nodes[k - 1], u);
    }
  }

  /** A source that no edge enters ends a forward pass with its reset value: its input for an input
      node, its own threshold for a hidden one. Decoded connections never enter an input, so every input
      node holds its input. */
  lemma SourcesHoldResetValue(s: Structure, es: seq<Edge>, memory: set<nat>, act: ActivationFn,
                              st: seq<Neuron>, input: seq<real>, u: nat)
    requires Built(s, es, memory) && WellFormed(s)
    requires |st| == s.shape.NNeurons() && |input| >= s.shape.input && u < |st|
    requires u in s.sources
    requires forall i :: 0 <= i < |es| ==> es[i].dst != u
    ensures ForwardState(s, act, st, input)[u].value == (if u < s.shape.input then input[u] else st[u].w)
  {
    forall i | 0 <= i < |s.edges| ensures s.edges[i].dst != u {
      assert s.edges[i] in es;
    }
    CountInZero(s.edges, u);
    assert u !in s.selfConnected;
    var reset := Reset(s, st, input);
    WalkKeeps(s, act, Snapshot(s, reset), Clear(s, reset), |s.nodes|, u);
  }

  /** The state the walk starts from: sources hold their reset value, the other nodes of the execution
      order are zeroed unless they are memory nodes, which keep the value of the previous pass, and the
      self-connected nodes are snapshotted after the reset and before the clearing. */
  lemma WalkStart(s: Structure, es: seq<Edge>, memory: set<nat>, st: seq<Neuron>, input: seq<real>, v: nat)
    requires Built(s, es, memory) && WellFormed(s)
    requires |st| == s.shape.NNeurons() && |input| >= s.shape.input && v < |st|
    ensures var reset := Reset(s, st, input);
      && Clear(s, reset)[v].value == (if v in s.sources then (if v < s.shape.input then input[v] else st[v].w)
                                     else if v in s.nodes && v !in memory then 0.0
                                     else st[v].value)
      && (v in s.selfConnected ==> Snapshot(s, reset)[v] == reset[v].value)
  {
  }

  /** The outputs after a pass are the output nodes' values, one per output. */
  lemma ForwardOutputsLength(s: Structure, act: ActivationFn, st: seq<Neuron>, input: seq<real>)
    requires WellFormed(s) && |st| == s.shape.NNeurons() && |input| >= s.shape.input
    ensures |Outputs(s, ForwardState(s, act, st, input))| == s.shape.output
  {
  }

  /** Negative outputs weigh nothing in the action draw. */
  function DrawWeights(res: seq<real>): (p: seq<real>)
    ensures |p| == |res|
    ensures forall i :: 0 <= i < |p| ==> p[i] >= 0.0 && (res[i] > 0.0 ==> p[i] == res[i]) && (res[i] <= 0.0 ==> p[i] == 0.0)
  {
    seq(|res|, i requires 0 <= i < |res| => if res[i] < 0.0 then 0.0 else res[i])
  }

  /** The weighted draw over the outputs: some index of positive weight, or index 0 when there is none,
      where the draw fails and the source falls back to 0. */
  method ChooseIndex(res: seq<real>) returns (i: nat)
    ensures (exists j :: 0 <= j < |res| && res[j] > 0.0) ==> i < |res| && res[i] > 0.0
    ensures (forall j :: 0 <= j < |res| ==> res[j] <= 0.0) ==> i == 0
  {
    var p := DrawWeights(res);
    if exists j :: 0 <= j < |p| && p[j] > 0.0 {
      i :| 0 <= i < |p| && p[i] > 0.0;
    } else {
      i := 0;
    }
  }

  // ---- the neural system object ----

  /** A fresh array holding the given neurons. */
  method NewNeurons(init: seq<Neuron>) returns (a: array<Neuron>)
    ensures fresh(a) && a[..] == init
  {
    a := new Neuron[|init|](i requires 0 <= i < |init| => init[i]);
  }

  class NeuralSystem {
    const structure: Structure
    /** The numeric meaning of each activation kind. */
    const act: ActivationFn
    /** The neurons of the graph, by node index; the slots of pruned nodes are never used again. */
    const neurons: array<Neuron>

    ghost predicate Valid() {
      WellFormed(structure) && neurons.Length == structure.shape.NNeurons()
    }

    constructor (neuronList: seq<(bool, Neuron)>, connections: seq<Connection>, shape: NsShape, act: ActivationFn)
      requires |neuronList| == shape.hidden
      requires EdgesWithin(ConnEdges(connections), shape.NNeurons())
      ensures Valid() && structure.shape == shape && this.act == act
      ensures Built(structure, ConnEdges(connections), MemoryNodes(neuronList, shape.input))
      ensures fresh(neurons) && neurons[..] == InitialNeurons(neuronList, shape)
    {
      var s := Build(neuronList, connections, shape);
      var init := InitialNeurons(neuronList, shape);
      structure := s;
      this.act := act;
      var a := NewNeurons(init);
      neurons := a;
    }

    method AddAlongInPlace(v: nat, sel: EdgeSelection, x: real)
      requires Valid()
      modifies neurons
      ensures neurons[..] == AddAlong(old(neurons[..]), structure.edges, v, sel, x)
    {
      var es := structure.edges;
      ghost var st0 := neurons[..];
      var i := 0;
      while i < |es|
        invariant 0 <= i <= |es|
        invariant neurons[..] == AddAlong(st0, es[..i], v, sel, x)
      {
        var e := es[i];
        assert es[..i + 1] == es[..i] + [e];
        EdgesWithinPrefix(es, i + 1, |st0|);
        AddAlongSnoc(st0, es[..i], e, v, sel, x);
        if Selected(sel, e, v) {
          ghost var before := neurons[..];
          neurons[e.dst] := neurons[e.dst].(value := neurons[e.dst].value + Signal(e.w, x));
          assert neurons[..] == Bump(before, e, x);
        }
        i := i + 1;
      }
      assert es[..i] == es;
    }

    method StepInPlace(snap: map<nat, real>, v: nat)
      requires Valid() && v < neurons.Length && structure.selfConnected <= snap.Keys
      modifies neurons
      ensures neurons[..] == Step(structure, act, snap, old(neurons[..]), v)
    {
      if v in structure.selfConnected {
        AddAlongInPlace(v, SelfEdges, snap[v]);
        var fired := Fire(neurons[v], act);
        neurons[v] := fired.0;
        AddAlongInPlace(v, OtherEdges, fired.1);
      } else {
        var out;
        if v !in structure.sources {
          var fired := Fire(neurons[v], act);
          neurons[v] := fired.0;
          out := fired.1;
        } else {
          out := neurons[v].value;
        }
        AddAlongInPlace(v, AllEdges, out);
      }
    }

    method ResetInPlace(input: seq<real>)
      requires Valid() && |input| >= structure.shape.input
      modifies neurons
      ensures neurons[..] == Reset(structure, old(neurons[..]), input)
    {
      var s := structure;
      ghost var st0 := neurons[..];
      var todo := s.sources;
      while todo != {}
        invariant todo <= s.sources
        invariant forall j :: 0 <= j < neurons.Length ==>
          neurons[j] == (if j in s.sources - todo then Reset(s, st0, input)[j] else st0[j])
        decreases |todo|
      {
        var v :| v in todo;
        neurons[v] := neurons[v].(value := if v < s.shape.input then input[v] else neurons[v].w);
        todo := todo - {v};
      }
      assert neurons[..] == Reset(s, st0, input);
    }

    method TakeSnapshot() returns (snap: map<nat, real>)
      requires Valid()
      ensures snap == Snapshot(structure, neurons[..])
    {
      snap := map[];
      var pending := structure.selfConnected;
      while pending != {}
        invariant pending <= structure.selfConnected
        invariant snap.Keys == structure.selfConnected - pending
        invariant forall v :: v in snap ==> v < neurons.Length && snap[v] == neurons[v].value
        decreases |pending|
      {
        var v :| v in pending;
        snap := snap[v := neurons[v].value];
        pending := pending - {v};
      }
    }

    method ClearInPlace()
      requires Valid()
      modifies neurons
      ensures neurons[..] == Clear(structure, old(neurons[..]))
    {
      var s := structure;
      ghost var st1 := neurons[..];
      var todo := s.nodesToClear;
      while todo != {}
        invariant todo <= s.nodesToClear
        invariant forall j :: 0 <= j < neurons.Length ==>
          neurons[j] == (if j in s.nodesToClear - todo then Clear(s, st1)[j] else st1[j])
        decreases |todo|
      {
        var v :| v in todo;
        neurons[v] := neurons[v].(value := 0.0);
        todo := todo - {v};
      }
      assert neurons[..] == Clear(s, st1);
    }

    method WalkInPlace(snap: map<nat, real>)
      requires Valid() && structure.selfConnected <= snap.Keys
      modifies neurons
      ensures neurons[..] == Walk(structure, act, snap, old(neurons[..]), |structure.nodes|)
    {
      var k := 0;
      while k < |structure.nodes|
        invariant 0 <= k <= |structure.nodes|
        invariant neurons[..] == Walk(structure, act, snap, old(neurons[..]), k)
      {
        assert structure.nodes[k] in structure.nodes;
        StepInPlace(snap, structure.nodes[k]);
        k := k + 1;
      }
    }

    method ReadOutputs() returns (res: seq<real>)
      requires Valid()
      ensures res == Outputs(structure, neurons[..])
    {
      var outStart := structure.shape.input + structure.shape.hidden;
      res := [];
      var index := outStart;
      while index < outStart + structure.shape.output
        invariant outStart <= index <= outStart + structure.shape.output
        invariant res == Outputs(structure, neurons[..])[..index - outStart]
      {
        res := res + [neurons[index].value];
        index := index + 1;
      }
    }

    /** One evaluation: reset the sources, snapshot the self-connected nodes, clear, walk the execution
        order, and read the outputs. */
    method Forward(input: seq<real>) returns (res: seq<real>)
      requires Valid() && |input| >= structure.shape.input
      modifies neurons
      ensures neurons[..] == ForwardState(structure, act, old(neurons[..]), input)
      ensures res == Outputs(structure, neurons[..])
    {
      ResetInPlace(input);
      var snap := TakeSnapshot();
      ClearInPlace();
      WalkInPlace(snap);
      res := ReadOutputs();
    }
  
    /** Evaluates the inputs and decodes the drawn output index as an action; with no positive output
        the action is `Halt`. The outputs must not outnumber the actions, as decoding panics otherwise. */
    method GetAction(input: seq<real>) returns (a: Actions.Action)
      requires Valid() && |input| >= structure.shape.input && structure.shape.output <= Actions.N_ACTIONS
      modifies neurons
      ensures neurons[..] == ForwardState(structure, act, old(neurons[..]), input)
      ensures var res := Outputs(structure, neurons[..]);
        && ((forall j :: 0 <= j < |res| ==> res[j] <= 0.0) ==> a == Actions.Halt)
        && (forall j :: 0 <= j < |res| && res[j] > 0.0 ==> exists k :: 0 <= k < |res| && res[k] > 0.0 && a == Actions.Get(k))
    {
      var res := Forward(input);
      var index := ChooseIndex(res);
      a := Actions.Get(index);
    }
}
}
