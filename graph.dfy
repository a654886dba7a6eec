/** Directed weighted multigraphs over node indices, as edge lists, and reachability along them.
    Shared by the neural systems of every generation. */
module Graphs {

  /** An edge `src -> dst` carrying weight `w`; parallel edges and self-loops are allowed. */
  datatype Edge = Edge(src: nat, dst: nat, w: real)

  predicate EdgesWithin(es: seq<Edge>, n: nat) {
    forall i :: 0 <= i < |es| ==> es[i].src < n && es[i].dst < n
  }

  /** A prefix of an edge list within `n` nodes is within them too. */
  lemma EdgesWithinPrefix(es: seq<Edge>, k: nat, n: nat)
    requires EdgesWithin(es, n) && k <= |es|
    ensures EdgesWithin(es[..k], n)
  {
    forall i | 0 <= i < k ensures es[..k][i].src < n && es[..k][i].dst < n {
      assert es[..k][i] == es[i];
    }
  }

  predicate HasEdge(es: seq<Edge>, u: nat, v: nat) {
    exists i :: 0 <= i < |es| && es[i].src == u && es[i].dst == v
  }

  /** `p` follows edges of `es` from its first to its last node. */
  ghost predicate IsPath(es: seq<Edge>, p: seq<nat>) {
    |p| >= 1 && forall i :: 0 <= i < |p| - 1 ==> HasEdge(es, p[i], p[i + 1])
  }

  /** Some node of `targets` can be reached from `u` along zero or more edges. */
  ghost predicate Reaches(es: seq<Edge>, u: nat, targets: set<nat>) {
    exists p :: IsPath(es, p) && p[0] == u && p[|p| - 1] in targets
  }

  lemma ReachesTrivially(es: seq<Edge>, u: nat, targets: set<nat>)
    requires u in targets
    ensures Reaches(es, u, targets)
  {
    assert IsPath(es, [u]);
  }

  /** One edge in front of a path is a path. */
  lemma ReachesStep(es: seq<Edge>, u: nat, v: nat, targets: set<nat>)
    requires HasEdge(es, u, v) && Reaches(es, v, targets)
    ensures Reaches(es, u, targets)
  {
    var p :| IsPath(es, p) && p[0] == v && p[|p| - 1] in targets;
    var q := [u] + p;
    assert forall i :: 1 <= i < |q| - 1 ==> q[i] == p[i - 1] && q[i + 1] == p[i];
    assert IsPath(es, q);
  }

  /** A path to `v` followed by an edge out of `v` is a path to the edge's end. */
  lemma ReachesExtend(es: seq<Edge>, u: nat, v: nat, x: nat)
    requires Reaches(es, u, {v}) && HasEdge(es, v, x)
    ensures Reaches(es, u, {x})
  {
    var p :| IsPath(es, p) && p[0] == u && p[|p| - 1] in {v};
    var q := p + [x];
    assert forall i :: 0 <= i < |p| ==> q[i] == p[i];
    assert IsPath(es, q);
  }

  /** Reaching a larger target set is easier. */
  lemma ReachesMonotone(es: seq<Edge>, u: nat, small: set<nat>, large: set<nat>)
    requires small <= large && Reaches(es, u, small)
    ensures Reaches(es, u, large)
  {
  }

  /** A node set that contains the targets and, with each node, every node that has an edge into it,
      contains every node that reaches the targets. */
  lemma {:induction false} ClosedContainsReachers(es: seq<Edge>, s: set<nat>, targets: set<nat>, u: nat)
    requires targets <= s
    requires forall i :: 0 <= i < |es| && es[i].dst in s ==> es[i].src in s
    requires Reaches(es, u, targets)
    ensures u in s
  {
    var p :| IsPath(es, p) && p[0] == u && p[|p| - 1] in targets;
    PathIntoClosed(es, s, p, 0);
  }

  lemma {:induction false} PathIntoClosed(es: seq<Edge>, s: set<nat>, p: seq<nat>, k: nat)
    requires IsPath(es, p) && p[|p| - 1] in s && k < |p|
    requires forall i :: 0 <= i < |es| && es[i].dst in s ==> es[i].src in s
    ensures p[k] in s
    decreases |p| - k
  {
    if k < |p| - 1 {
      PathIntoClosed(es, s, p, k + 1);
      assert HasEdge(es, p[k], p[k + 1]);
    }
  }

  /** A node without outgoing edges reaches only itself. */
  lemma {:induction false} SinkReachesOnlyItself(es: seq<Edge>, u: nat, targets: set<nat>)
    requires u !in targets
    requires forall i :: 0 <= i < |es| ==> es[i].src != u
    ensures !Reaches(es, u, targets)
  {
    forall p | IsPath(es, p) && p[0] == u
      ensures |p| == 1
    {
      assert |p| > 1 ==> HasEdge(es, p[0], p[1]);
    }
  }

  /** Number of edges into `v`, parallel edges counted once each. */
  function CountIn(es: seq<Edge>, v: nat): (c: nat)
    ensures c <= |es|
  {
    if |es| == 0 then 0
    else CountIn(es[..|es| - 1], v) + (if es[|es| - 1].dst == v then 1 else 0)
  }

  /** Number of self-loops on `v`. */
  function CountSelf(es: seq<Edge>, v: nat): (c: nat)
    ensures c <= CountIn(es, v)
  {
    if |es| == 0 then 0
    else CountSelf(es[..|es| - 1], v) + (if es[|es| - 1].dst == v && es[|es| - 1].src == v then 1 else 0)
  }

  /** No edge enters `v` exactly when its in-count is 0. */
  lemma {:induction false} CountInZero(es: seq<Edge>, v: nat)
    ensures CountIn(es, v) == 0 <==> forall i :: 0 <= i < |es| ==> es[i].dst != v
  {
    if |es| > 0 {
      CountInZero(es[..|es| - 1], v);
      assert forall i :: 0 <= i < |es| - 1 ==> es[..|es| - 1][i] == es[i];
    }
  }

  /** Every edge entering `v` is a self-loop exactly when the two counts agree. */
  lemma {:induction false} CountSelfAll(es: seq<Edge>, v: nat)
    ensures CountSelf(es, v) == CountIn(es, v) <==> forall i :: 0 <= i < |es| && es[i].dst == v ==> es[i].src == v
  {
    if |es| > 0 {
      CountSelfAll(es[..|es| - 1], v);
      assert forall i :: 0 <= i < |es| - 1 ==> es[..|es| - 1][i] == es[i];
    }
  }

  /** Some edge entering `v` is a self-loop exactly when the self count is positive. */
  lemma {:induction false} CountSelfPositive(es: seq<Edge>, v: nat)
    ensures CountSelf(es, v) > 0 <==> exists i :: 0 <= i < |es| && es[i].dst == v && es[i].src == v
  {
    if |es| > 0 {
      CountSelfPositive(es[..|es| - 1], v);
      assert forall i :: 0 <= i < |es| - 1 ==> es[..|es| - 1][i] == es[i];
    }
  }

  /** The sources of the edges into `v`, newest edge first: the order in which the graph library
      lists the incoming neighbours of a node. */
  function Preds(es: seq<Edge>, v: nat): (ps: seq<nat>)
    ensures forall j :: 0 <= j < |ps| ==> HasEdge(es, ps[j], v)
    ensures forall i :: 0 <= i < |es| && es[i].dst == v ==> es[i].src in ps
  {
    if |es| == 0 then []
    else
      var rest := Preds(es[..|es| - 1], v);
      assert forall j :: 0 <= j < |rest| ==> HasEdge(es, rest[j], v) by {
        forall j | 0 <= j < |rest| ensures HasEdge(es, rest[j], v) {
          var i :| 0 <= i < |es| - 1 && es[..|es| - 1][i].src == rest[j] && es[..|es| - 1][i].dst == v;
          assert es[i] == es[..|es| - 1][i];
        }
      }
      assert forall i :: 0 <= i < |es| - 1 ==> es[..|es| - 1][i] == es[i];
      if es[|es| - 1].dst == v then [es[|es| - 1].src] + rest else rest
  }

  /** Keeps the edges whose both ends satisfy `keep`, in their order: removing the other nodes. */
  function FilterEdges(es: seq<Edge>, keep: set<nat>): (r: seq<Edge>)
    ensures |r| <= |es|
    ensures forall i :: 0 <= i < |r| ==> r[i] in es && r[i].src in keep && r[i].dst in keep
    ensures forall i :: 0 <= i < |es| && es[i].src in keep && es[i].dst in keep ==> es[i] in r
  {
    if |es| == 0 then []
    else
      var rest := FilterEdges(es[..|es| - 1], keep);
      assert forall i :: 0 <= i < |es| - 1 ==> es[..|es| - 1][i] == es[i];
      if es[|es| - 1].src in keep && es[|es| - 1].dst in keep then rest + [es[|es| - 1]] else rest
  }

  /** Every subset of 0..n-1 has at most n elements. */
  lemma {:induction false} BoundedSetSize(s: set<nat>, n: nat)
    requires forall x :: x in s ==> x < n
    ensures |s| <= n
  {
    if n > 0 {
      BoundedSetSize(s - {n - 1}, n - 1);
    }
  }

  /** The node indices lo..hi-1. */
  function Range(lo: nat, hi: nat): (s: set<nat>)
    ensures forall x :: x in s <==> lo <= x < hi
    decreases hi
  {
    if hi <= lo then {} else Range(lo, hi - 1) + {hi - 1}
  }

  /** Reaching a union means reaching one of its parts. */
  lemma ReachesUnion(es: seq<Edge>, u: nat, a: set<nat>, b: set<nat>)
    ensures Reaches(es, u, a + b) <==> Reaches(es, u, a) || Reaches(es, u, b)
  {
    if Reaches(es, u, a + b) {
      var p :| IsPath(es, p) && p[0] == u && p[|p| - 1] in a + b;
      if p[|p| - 1] in a {
        assert Reaches(es, u, a);
      } else {
        assert Reaches(es, u, b);
      }
    }
  }

  /** A node set that no edge leaves and that holds no target contains no node reaching a target. */
  lemma {:induction false} ForwardClosedAvoids(es: seq<Edge>, c: set<nat>, targets: set<nat>, u: nat)
    requires u in c && c !! targets
    requires forall i :: 0 <= i < |es| && es[i].src in c ==> es[i].dst in c
    ensures !Reaches(es, u, targets)
  {
    forall p | IsPath(es, p) && p[0] == u
      ensures p[|p| - 1] in c
    {
      PathStaysIn(es, c, p, |p| - 1);
    }
  }

  lemma {:induction false} PathStaysIn(es: seq<Edge>, c: set<nat>, p: seq<nat>, k: nat)
    requires IsPath(es, p) && p[0] in c && k < |p|
    requires forall i :: 0 <= i < |es| && es[i].src in c ==> es[i].dst in c
    ensures p[k] in c
  {
    if k > 0 {
      PathStaysIn(es, c, p, k - 1);
      assert HasEdge(es, p[k - 1], p[k]);
    }
  }

  predicate Distinct(s: seq<nat>) {
    forall i, j :: 0 <= i < j < |s| ==> s[i] != s[j]
  }
}
