/** The first generation of the neural system (src/ns.rs): connections decoded from genes with
    partition-local indices, then sorted into layers by filters: direct input-to-output connections,
    input connections, internal connections one step deep, and output connections. */
module LayeredNeuralSystems {
  import opened Genes
  import opened Connections
  import NeuralSystems

  /** A connection of this generation; `selfConnected` is fixed when it is made. */
  datatype LayeredConnection = LayeredConnection(
    w: real, sensorIn: bool, sensorOut: bool, inIndex: nat, outIndex: nat, selfConnected: bool)

  /** A connection is a self-loop exactly when it joins a hidden node to itself. */
  function NewConnection(w: real, sensorIn: bool, sensorOut: bool, inIndex: nat, outIndex: nat): (c: LayeredConnection)
    ensures c.w == w && c.sensorIn == sensorIn && c.sensorOut == sensorOut
    ensures c.inIndex == inIndex && c.outIndex == outIndex
    ensures c.selfConnected <==> !sensorIn && !sensorOut && inIndex == outIndex
  {
    LayeredConnection(w, sensorIn, sensorOut, inIndex, outIndex, !(sensorIn || sensorOut) && inIndex == outIndex)
  }

  /** Decodes one gene: each raw index is folded into the partition its sensor flag selects and kept
      partition-local. A zero-sized partition panics in the source (division by zero). */
  function FoldConnection(g: Gene, shape: NsShape): (c: LayeredConnection)
    requires Decodable(g, shape)
    ensures c.w == WeightF(g) && c.sensorIn == (InType(g) == 1) && c.sensorOut == (OutType(g) == 1)
    ensures c.inIndex < if c.sensorIn then shape.input else shape.hidden
    ensures c.outIndex < if c.sensorOut then shape.output else shape.hidden
    ensures c.selfConnected <==> !c.sensorIn && !c.sensorOut && c.inIndex == c.outIndex
  {
    var sensorIn := InType(g) == 1;
    var sensorOut := OutType(g) == 1;
    var inIndex := InIndex(g) % if sensorIn then shape.input else shape.hidden;
    var outIndex := OutIndex(g) % if sensorOut then shape.output else shape.hidden;
    NewConnection(WeightF(g), sensorIn, sensorOut, inIndex, outIndex)
  }

  // ---- filters ----

  /** The connections satisfying `p`, in their order. */
  function Keep(cs: seq<LayeredConnection>, p: LayeredConnection -> bool): (r: seq<LayeredConnection>)
    ensures |r| <= |cs|
  {
    if |cs| == 0 then []
    else Keep(cs[..|cs| - 1], p) + if p(cs[|cs| - 1]) then [cs[|cs| - 1]] else []
  }

  /** The filter holds each connection satisfying `p` as often as the input does, and no other. */
  lemma {:induction false} KeepCount(cs: seq<LayeredConnection>, p: LayeredConnection -> bool)
    ensures forall c :: multiset(Keep(cs, p))[c] == if p(c) then multiset(cs)[c] else 0
  {
    if |cs| > 0 {
      var init := cs[..|cs| - 1];
      assert cs == init + [cs[|cs| - 1]];
      KeepCount(init, p);
    }
  }

  /** Filtering keeps the order: the filter of a concatenation is the concatenation of the filters. */
  lemma {:induction false} KeepAppend(a: seq<LayeredConnection>, b: seq<LayeredConnection>, p: LayeredConnection -> bool)
    ensures Keep(a + b, p) == Keep(a, p) + Keep(b, p)
    decreases |b|
  {
    if |b| > 0 {
      var b0 := b[..|b| - 1];
      assert (a + b)[..|a + b| - 1] == a + b0;
      assert (a + b)[|a + b| - 1] == b[|b| - 1];
      KeepAppend(a, b0, p);
      var tail := if p(b[|b| - 1]) then [b[|b| - 1]] else [];
      calc {
        Keep(a + b, p);
        Keep(a + b0, p) + tail;
        Keep(a, p) + Keep(b0, p) + tail;
        Keep(a, p) + (Keep(b0, p) + tail);
        Keep(a, p) + Keep(b, p);
      }
    } else {
      assert a + b == a;
    }
  }

  lemma KeepMembers(cs: seq<LayeredConnection>, p: LayeredConnection -> bool, c: LayeredConnection)
    ensures c in Keep(cs, p) <==> c in cs && p(c)
  {
    KeepCount(cs, p);
    assert c in Keep(cs, p) <==> multiset(Keep(cs, p))[c] > 0;
    assert c in cs <==> multiset(cs)[c] > 0;
  }

  /** Some connection of `xs` starts where `c` ends. */
  predicate Feeds(c: LayeredConnection, xs: seq<LayeredConnection>) {
    exists i :: 0 <= i < |xs| && xs[i].inIndex == c.outIndex
  }

  predicate IsDirect(c: LayeredConnection) { c.sensorIn && c.sensorOut }

  predicate IsOut(c: LayeredConnection) { !c.sensorIn && c.sensorOut }

  /** A hidden-to-hidden connection into a node that some output connection reads. */
  predicate IsInternal(c: LayeredConnection, outs: seq<LayeredConnection>) {
    !(c.sensorIn || c.sensorOut) && Feeds(c, outs)
  }

  /** An input-to-hidden connection into a node that some internal or output connection reads. */
  predicate IsInput(c: LayeredConnection, internal: seq<LayeredConnection>, outs: seq<LayeredConnection>) {
    (c.sensorIn && !c.sensorOut) && (Feeds(c, internal) || Feeds(c, outs))
  }

  /** The hidden nodes that hold a value: the targets of the input and internal connections. */
  function TargetIds(cs: seq<LayeredConnection>): (ids: set<nat>)
    ensures forall v :: v in ids <==> exists i :: 0 <= i < |cs| && cs[i].outIndex == v
  {
    set i | 0 <= i < |cs| :: cs[i].outIndex
  }

  /** Sorts the connections into layers. */
  method ProcessConnections(cs: seq<LayeredConnection>)
    returns (direct: seq<LayeredConnection>, input: seq<LayeredConnection>, internal: seq<LayeredConnection>,
             outs: seq<LayeredConnection>, ids: set<nat>)
    ensures direct == Keep(cs, IsDirect) && outs == Keep(cs, IsOut)
    ensures internal == Keep(cs, c => IsInternal(c, outs))
    ensures input == Keep(cs, c => IsInput(c, internal, outs))
    ensures ids == TargetIds(input + internal)
  {
    direct := Keep(cs, IsDirect);
    outs := Keep(cs, IsOut);
    internal := Keep(cs, c => IsInternal(c, outs));
    input := Keep(cs, c => IsInput(c, internal, outs));
    ids := CollectTargets(input + internal);
  }

  /** What each layer holds: connections into hidden nodes that lead nowhere are dropped, and so is
      every chain of more than one hidden-to-hidden step. */
  lemma LayerMembers(cs: seq<LayeredConnection>, direct: seq<LayeredConnection>, input: seq<LayeredConnection>,
                     internal: seq<LayeredConnection>, outs: seq<LayeredConnection>)
    requires direct == Keep(cs, IsDirect) && outs == Keep(cs, IsOut)
    requires internal == Keep(cs, c => IsInternal(c, outs))
    requires input == Keep(cs, c => IsInput(c, internal, outs))
    ensures forall c :: c in direct <==> c in cs && c.sensorIn && c.sensorOut
    ensures forall c :: c in outs <==> c in cs && !c.sensorIn && c.sensorOut
    ensures forall c :: c in internal <==> c in cs && !c.sensorIn && !c.sensorOut && Feeds(c, outs)
    ensures forall c :: c in input <==> c in cs && c.sensorIn && !c.sensorOut && (Feeds(c, internal) || Feeds(c, outs))
  {
    forall c ensures c in direct <==> c in cs && c.sensorIn && c.sensorOut {
      KeepMembers(cs, IsDirect, c);
    }
    forall c ensures c in outs <==> c in cs && !c.sensorIn && c.sensorOut {
      KeepMembers(cs, IsOut, c);
    }
    forall c ensures c in internal <==> c in cs && !c.sensorIn && !c.sensorOut && Feeds(c, outs) {
      KeepMembers(cs, c => IsInternal(c, outs), c);
    }
    forall c ensures c in input <==> c in cs && c.sensorIn && !c.sensorOut && (Feeds(c, internal) || Feeds(c, outs)) {
      KeepMembers(cs, c => IsInput(c, internal, outs), c);
    }
  }

  /** The loop gathering the targets of a list of connections. */
  method CollectTargets(chain: seq<LayeredConnection>) returns (ids: set<nat>)
    ensures ids == TargetIds(chain)
  {
    ids := {};
    for i := 0 to |chain|
      invariant forall v :: v in ids <==> exists j :: 0 <= j < i && chain[j].outIndex == v
    {
      ids := ids + {chain[i].outIndex};
    }
  }

  // ---- the system ----

  /** The layers of a system of this generation and the hidden nodes that hold values. */
  datatype LayeredNeuralSystem = LayeredNeuralSystem(
    outSize: nat,
    direct: seq<LayeredConnection>,
    input: seq<LayeredConnection>,
    internal: seq<LayeredConnection>,
    outs: seq<LayeredConnection>,
    ids: set<nat>)

  /** `ns` holds the layers of `cs`. */
  ghost predicate LayersOf(ns: LayeredNeuralSystem, cs: seq<LayeredConnection>) {
    && ns.direct == Keep(cs, IsDirect) && ns.outs == Keep(cs, IsOut)
    && ns.internal == Keep(cs, c => IsInternal(c, ns.outs))
    && ns.input == Keep(cs, c => IsInput(c, ns.internal, ns.outs))
    && ns.ids == TargetIds(ns.input + ns.internal)
  }

  /** Decodes every gene, in order, and sorts the connections into layers. */
  method Init(genome: seq<Gene>, shape: NsShape) returns (ns: LayeredNeuralSystem, ghost connections: seq<LayeredConnection>)
    requires forall i :: 0 <= i < |genome| ==> Decodable(genome[i], shape)
    ensures |connections| == |genome|
    ensures forall i :: 0 <= i < |genome| ==> connections[i] == FoldConnection(genome[i], shape)
    ensures ns.outSize == shape.output && LayersOf(ns, connections)
  {
    var cs: seq<LayeredConnection> := [];
    for i := 0 to |genome|
      invariant |cs| == i && forall j :: 0 <= j < i ==> cs[j] == FoldConnection(genome[j], shape)
    {
      cs := cs + [FoldConnection(genome[i], shape)];
    }
    var direct, input, internal, outs, ids := ProcessConnections(cs);
    ns := LayeredNeuralSystem(shape.output, direct, input, internal, outs, ids);
    connections := cs;
  }

  // ---- evaluation ----

  /** Every connection reads an entry of a vector of length `n`. */
  predicate ReadsBelow(cs: seq<LayeredConnection>, n: nat) {
    forall i :: 0 <= i < |cs| ==> cs[i].inIndex < n
  }

  /** Every connection that is not a self-loop, or every connection when `internal` is false,
      reads an entry of a vector of length `n`. */
  predicate LoopFreeReadsBelow(cs: seq<LayeredConnection>, n: nat, internal: bool) {
    forall i :: 0 <= i < |cs| && !(internal && cs[i].selfConnected) ==> cs[i].inIndex < n
  }

  /** Every connection writes an entry of a vector of length `n`. */
  predicate WritesBelow(cs: seq<LayeredConnection>, n: nat) {
    forall i :: 0 <= i < |cs| ==> cs[i].outIndex < n
  }

  /** Every connection writes a hidden node of `ids`. */
  predicate WritesInto(cs: seq<LayeredConnection>, ids: set<nat>) {
    forall i :: 0 <= i < |cs| ==> cs[i].outIndex in ids
  }

  predicate IsSelfLoop(c: LayeredConnection) { c.selfConnected }

  /** What a forward pass with an input vector of length `n` needs so that no index is out of bounds
      and no hidden node is missing. */
  predicate Runnable(ns: LayeredNeuralSystem, n: nat) {
    && ReadsBelow(ns.direct, n) && WritesBelow(ns.direct, ns.outSize)
    && ReadsBelow(ns.input, n) && WritesInto(ns.input, ns.ids)
    && LoopFreeReadsBelow(ns.internal, n, true) && WritesInto(ns.internal, ns.ids)
    && WritesBelow(ns.outs, ns.outSize)
  }

  /** The direct connections add their weighted inputs to the outputs. */
  function DirectPass(res: seq<real>, cs: seq<LayeredConnection>, input: seq<real>): (r: seq<real>)
    requires ReadsBelow(cs, |input|) && WritesBelow(cs, |res|)
    ensures |r| == |res|
  {
    if |cs| == 0 then res
    else
      var c := cs[|cs| - 1];
      var r0 := DirectPass(res, cs[..|cs| - 1], input);
      r0[c.outIndex := r0[c.outIndex] + NeuralSystems.Signal(c.w, input[c.inIndex])]
  }

  /** The input connections, and the internal ones that are not self-loops (`internal` set), add
      their weighted inputs to the hidden values. */
  function InputPass(values: map<nat, real>, cs: seq<LayeredConnection>, input: seq<real>, internal: bool): (r: map<nat, real>)
    requires LoopFreeReadsBelow(cs, |input|, internal) && WritesInto(cs, values.Keys)
    ensures r.Keys == values.Keys
  {
    if |cs| == 0 then values
    else
      var c := cs[|cs| - 1];
      var v0 := InputPass(values, cs[..|cs| - 1], input, internal);
      if internal && c.selfConnected then v0
      else v0[c.outIndex := v0[c.outIndex] + NeuralSystems.Signal(c.w, input[c.inIndex])]
  }

  /** Each self-loop, in order, replaces the value `s` of its node by `tanh(s + w * s)`. */
  function SelfPass(values: map<nat, real>, cs: seq<LayeredConnection>, tanh: real -> real): (r: map<nat, real>)
    requires WritesInto(cs, values.Keys)
    ensures r.Keys == values.Keys
  {
    if |cs| == 0 then values
    else
      var c := cs[|cs| - 1];
      var v0 := SelfPass(values, cs[..|cs| - 1], tanh);
      var sum := v0[c.outIndex];
      v0[c.outIndex := tanh(sum + NeuralSystems.Signal(c.w, sum))]
  }

  /** The output connections add the weighted value of their hidden node, or their bare weight when
      the node holds no value. */
  function OutPass(res: seq<real>, values: map<nat, real>, cs: seq<LayeredConnection>): (r: seq<real>)
    requires WritesBelow(cs, |res|)
    ensures |r| == |res|
  {
    if |cs| == 0 then res
    else
      var c := cs[|cs| - 1];
      var r0 := OutPass(res, values, cs[..|cs| - 1]);
      var x := if c.inIndex in values then NeuralSystems.Signal(c.w, values[c.inIndex]) else c.w;
      r0[c.outIndex := r0[c.outIndex] + x]
  }

  /** The result of a forward pass. */
  function Evaluate(ns: LayeredNeuralSystem, input: seq<real>, tanh: real -> real): (res: seq<real>)
    requires Runnable(ns, |input|)
    ensures |res| == ns.outSize
  {
    var res1 := DirectPass(seq(ns.outSize, _ => 0.0), ns.direct, input);
    var v0 := map id | id in ns.ids :: 0.0;
    var v1 := InputPass(v0, ns.input, input, false);
    var v2 := InputPass(v1, ns.internal, input, true);
    KeepMembersWrite(ns.internal, ns.ids);
    var v3 := SelfPass(v2, Keep(ns.internal, IsSelfLoop), tanh);
    var res2 := OutPass(res1, v3, ns.outs);
    seq(|res2|, i requires 0 <= i < |res2| => tanh(res2[i]))
  }

  /** A filter of connections writing into `ids` writes into `ids`. */
  lemma KeepMembersWrite(cs: seq<LayeredConnection>, ids: set<nat>)
    requires WritesInto(cs, ids)
    ensures WritesInto(Keep(cs, IsSelfLoop), ids)
  {
    var k := Keep(cs, IsSelfLoop);
    forall i | 0 <= i < |k|
      ensures k[i].outIndex in ids
    {
      KeepMembers(cs, IsSelfLoop, k[i]);
      var j :| 0 <= j < |cs| && cs[j] == k[i];
    }
  }

  method ApplyDirect(res0: seq<real>, cs: seq<LayeredConnection>, input: seq<real>) returns (res: seq<real>)
    requires ReadsBelow(cs, |input|) && WritesBelow(cs, |res0|)
    ensures res == DirectPass(res0, cs, input)
  {
    res := res0;
    for i := 0 to |cs|
      invariant res == DirectPass(res0, cs[..i], input)
    {
      var c := cs[i];
      assert cs[..i + 1][..i] == cs[..i];
      res := res[c.outIndex := res[c.outIndex] + NeuralSystems.Signal(c.w, input[c.inIndex])];
    }
    assert cs[..|cs|] == cs;
  }

  method ApplyInput(values0: map<nat, real>, cs: seq<LayeredConnection>, input: seq<real>) returns (values: map<nat, real>)
    requires ReadsBelow(cs, |input|) && WritesInto(cs, values0.Keys)
    ensures values == InputPass(values0, cs, input, false)
  {
    values := values0;
    for i := 0 to |cs|
      invariant values == InputPass(values0, cs[..i], input, false)
    {
      var c := cs[i];
      assert cs[..i + 1][..i] == cs[..i];
      values := values[c.outIndex := values[c.outIndex] + NeuralSystems.Signal(c.w, input[c.inIndex])];
    }
    assert cs[..|cs|] == cs;
  }

  /** The loop over the internal connections, which also sets the self-loops aside. */
  method ApplyInternal(values0: map<nat, real>, cs: seq<LayeredConnection>, input: seq<real>)
    returns (values: map<nat, real>, selfs: seq<LayeredConnection>)
    requires LoopFreeReadsBelow(cs, |input|, true) && WritesInto(cs, values0.Keys)
    ensures values == InputPass(values0, cs, input, true) && selfs == Keep(cs, IsSelfLoop)
  {
    values, selfs := values0, [];
    for i := 0 to |cs|
      invariant values == InputPass(values0, cs[..i], input, true) && selfs == Keep(cs[..i], IsSelfLoop)
    {
      var c := cs[i];
      assert cs[..i + 1][..i] == cs[..i];
      if !c.selfConnected {
        values := values[c.outIndex := values[c.outIndex] + NeuralSystems.Signal(c.w, input[c.inIndex])];
      } else {
        selfs := selfs + [c];
      }
    }
    assert cs[..|cs|] == cs;
  }

  method ApplySelf(values0: map<nat, real>, cs: seq<LayeredConnection>, tanh: real -> real) returns (values: map<nat, real>)
    requires WritesInto(cs, values0.Keys)
    ensures values == SelfPass(values0, cs, tanh)
  {
    values := values0;
    for i := 0 to |cs|
      invariant values == SelfPass(values0, cs[..i], tanh)
    {
      var c := cs[i];
      assert cs[..i + 1][..i] == cs[..i];
      var sum := values[c.outIndex];
      sum := sum + NeuralSystems.Signal(c.w, sum);
      sum := tanh(sum);
      values := values[c.outIndex := sum];
    }
    assert cs[..|cs|] == cs;
  }

  method ApplyOut(res0: seq<real>, values: map<nat, real>, cs: seq<LayeredConnection>) returns (res: seq<real>)
    requires WritesBelow(cs, |res0|)
    ensures res == OutPass(res0, values, cs)
  {
    res := res0;
    for i := 0 to |cs|
      invariant res == OutPass(res0, values, cs[..i])
    {
      var c := cs[i];
      assert cs[..i + 1][..i] == cs[..i];
      if c.inIndex in values {
        res := res[c.outIndex := res[c.outIndex] + NeuralSystems.Signal(c.w, values[c.inIndex])];
      } else {
        res := res[c.outIndex := res[c.outIndex] + c.w];
      }
    }
    assert cs[..|cs|] == cs;
  }

  /** One forward pass: the layers are applied in order and every output goes through `tanh`. */
  method Forward(ns: LayeredNeuralSystem, input: seq<real>, tanh: real -> real) returns (res: seq<real>)
    requires Runnable(ns, |input|)
    ensures res == Evaluate(ns, input, tanh) && |res| == ns.outSize
  {
    var out := ApplyDirect(seq(ns.outSize, _ => 0.0), ns.direct, input);
    var values: map<nat, real> := map id | id in ns.ids :: 0.0;
    values := ApplyInput(values, ns.input, input);
    var selfs;
    values, selfs := ApplyInternal(values, ns.internal, input);
    KeepMembersWrite(ns.internal, ns.ids);
    values := ApplySelf(values, selfs, tanh);
    out := ApplyOut(out, values, ns.outs);
    res := seq(|out|, i requires 0 <= i < |out| => tanh(out[i]));
  }

  /** A connection decoded for `shape` reads and writes within its partitions. */
  predicate Folded(c: LayeredConnection, shape: NsShape) {
    && c.inIndex < (if c.sensorIn then shape.input else shape.hidden)
    && c.outIndex < (if c.sensorOut then shape.output else shape.hidden)
  }

  /** A filter of folded connections holds folded connections. */
  lemma KeepFolded(cs: seq<LayeredConnection>, p: LayeredConnection -> bool, shape: NsShape)
    requires forall i :: 0 <= i < |cs| ==> Folded(cs[i], shape)
    ensures forall i :: 0 <= i < |Keep(cs, p)| ==> Folded(Keep(cs, p)[i], shape) && p(Keep(cs, p)[i])
  {
    var k := Keep(cs, p);
    forall i | 0 <= i < |k|
      ensures Folded(k[i], shape) && p(k[i])
    {
      KeepMembers(cs, p, k[i]);
    }
  }

  /** Every connection of the chain writes a node of its targets. */
  lemma WritesTargets(a: seq<LayeredConnection>, b: seq<LayeredConnection>)
    ensures WritesInto(a, TargetIds(a + b)) && WritesInto(b, TargetIds(a + b))
  {
    forall i | 0 <= i < |b|
      ensures b[i].outIndex in TargetIds(a + b)
    {
      assert (a + b)[|a| + i] == b[i];
    }
    forall i | 0 <= i < |a|
      ensures a[i].outIndex in TargetIds(a + b)
    {
      assert (a + b)[i] == a[i];
    }
  }

  /** A system decoded from a genome runs on any input vector at least as long as the input and the
      hidden partitions: the internal connections index the input vector by a hidden index. */
  lemma InitRunnable(genome: seq<Gene>, shape: NsShape, ns: LayeredNeuralSystem, cs: seq<LayeredConnection>, n: nat)
    requires forall i :: 0 <= i < |genome| ==> Decodable(genome[i], shape)
    requires |cs| == |genome| && forall i :: 0 <= i < |genome| ==> cs[i] == FoldConnection(genome[i], shape)
    requires ns.outSize == shape.output && LayersOf(ns, cs)
    requires shape.input <= n && shape.hidden <= n
    ensures Runnable(ns, n)
  {
    assert forall i :: 0 <= i < |cs| ==> Folded(cs[i], shape);
    KeepFolded(cs, IsDirect, shape);
    KeepFolded(cs, IsOut, shape);
    KeepFolded(cs, c => IsInternal(c, ns.outs), shape);
    KeepFolded(cs, c => IsInput(c, ns.internal, ns.outs), shape);
    WritesTargets(ns.input, ns.internal);
  }

  /** The direct pass leaves alone every output no direct connection writes. */
  lemma {:induction false} DirectPassKeeps(res: seq<real>, cs: seq<LayeredConnection>, input: seq<real>, k: nat)
    requires ReadsBelow(cs, |input|) && WritesBelow(cs, |res|) && k < |res|
    requires forall i :: 0 <= i < |cs| ==> cs[i].outIndex != k
    ensures DirectPass(res, cs, input)[k] == res[k]
  {
    if |cs| > 0 {
      DirectPassKeeps(res, cs[..|cs| - 1], input, k);
    }
  }

  /** The output pass leaves alone every output no output connection writes. */
  lemma {:induction false} OutPassKeeps(res: seq<real>, values: map<nat, real>, cs: seq<LayeredConnection>, k: nat)
    requires WritesBelow(cs, |res|) && k < |res|
    requires forall i :: 0 <= i < |cs| ==> cs[i].outIndex != k
    ensures OutPass(res, values, cs)[k] == res[k]
  {
    if |cs| > 0 {
      OutPassKeeps(res, values, cs[..|cs| - 1], k);
    }
  }

  /** An output that no direct and no output connection writes is `tanh(0)`. */
  lemma UnwiredOutput(ns: LayeredNeuralSystem, input: seq<real>, tanh: real -> real, k: nat)
    requires Runnable(ns, |input|) && k < ns.outSize
    requires forall i :: 0 <= i < |ns.direct| ==> ns.direct[i].outIndex != k
    requires forall i :: 0 <= i < |ns.outs| ==> ns.outs[i].outIndex != k
    ensures Evaluate(ns, input, tanh)[k] == tanh(0.0)
  {
    var zeros := seq(ns.outSize, _ => 0.0);
    DirectPassKeeps(zeros, ns.direct, input, k);
    var res1 := DirectPass(zeros, ns.direct, input);
    var v0 := map id | id in ns.ids :: 0.0;
    var v1 := InputPass(v0, ns.input, input, false);
    var v2 := InputPass(v1, ns.internal, input, true);
    KeepMembersWrite(ns.internal, ns.ids);
    var v3 := SelfPass(v2, Keep(ns.internal, IsSelfLoop), tanh);
    OutPassKeeps(res1, v3, ns.outs, k);
  }

  /** The connections of the layering test. */
  const LAYERING_TEST: seq<LayeredConnection> := [
    NewConnection(1.0, true, true, 0, 0),
    NewConnection(1.0, true, false, 1, 1),
    NewConnection(1.0, false, false, 0, 1),
    NewConnection(1.0, false, false, 1, 1),
    NewConnection(1.0, false, true, 1, 1),
    NewConnection(1.0, false, true, 4, 4),
    NewConnection(1.0, true, false, 1, 2),
    NewConnection(1.0, false, false, 3, 3),
    NewConnection(1.0, false, false, 0, 0)]

  /** The filter of one connection. */
  function Pick(c: LayeredConnection, p: LayeredConnection -> bool): (r: seq<LayeredConnection>)
  {
    if p(c) then [c] else []
  }

  /** Filtering the suffix from `k` on, one connection at a time. */
  lemma KeepFrom(cs: seq<LayeredConnection>, k: nat, p: LayeredConnection -> bool)
    requires k < |cs|
    ensures Keep(cs[k..], p) == Pick(cs[k], p) + Keep(cs[k + 1..], p)
  {
    assert cs[k..] == [cs[k]] + cs[k + 1..];
    KeepAppend([cs[k]], cs[k + 1..], p);
    assert [cs[k]][..0] == [];
  }

  /** Filters three connections one at a time. */
  lemma KeepThree(t: seq<LayeredConnection>, p: LayeredConnection -> bool)
    requires |t| == 3
    ensures Keep(t, p) == Pick(t[0], p) + Pick(t[1], p) + Pick(t[2], p)
  {
    assert t[3..] == [];
    KeepFrom(t, 2, p);
    var r := Pick(t[2], p);
    assert Keep(t[2..], p) == r;
    KeepFrom(t, 1, p);
    r := Pick(t[1], p) + r;
    assert Keep(t[1..], p) == r;
    KeepFrom(t, 0, p);
    assert t[0..] == t;
  }

  /** Filters nine connections three at a time. */
  lemma KeepNine(t: seq<LayeredConnection>, p: LayeredConnection -> bool)
    requires |t| == 9
    ensures Keep(t, p) == Keep(t[..3], p) + Keep(t[3..6], p) + Keep(t[6..], p)
    ensures Keep(t[..3], p) == Pick(t[0], p) + Pick(t[1], p) + Pick(t[2], p)
    ensures Keep(t[3..6], p) == Pick(t[3], p) + Pick(t[4], p) + Pick(t[5], p)
    ensures Keep(t[6..], p) == Pick(t[6], p) + Pick(t[7], p) + Pick(t[8], p)
  {
    var a, b, c := t[..3], t[3..6], t[6..];
    assert t == a + b + c;
    KeepAppend(a + b, c, p);
    KeepAppend(a, b, p);
    KeepThree(a, p);
    KeepThree(b, p);
    KeepThree(c, p);
  }

  /** The direct and output layers of the test connections. */
  lemma LayeringTestOuter()
    ensures Keep(LAYERING_TEST, IsDirect) == [LAYERING_TEST[0]]
    ensures Keep(LAYERING_TEST, IsOut) == [LAYERING_TEST[4], LAYERING_TEST[5]]
  {
    KeepNine(LAYERING_TEST, IsDirect);
    KeepNine(LAYERING_TEST, IsOut);
  }

  /** The internal layer of the test connections: the connection into hidden node 0 is read by no
      output connection, so it is dropped with the chains through it. */
  lemma LayeringTestInternal()
    ensures Keep(LAYERING_TEST, c => IsInternal(c, [LAYERING_TEST[4], LAYERING_TEST[5]])) == [LAYERING_TEST[2], LAYERING_TEST[3]]
  {
    var t := LAYERING_TEST;
    var outs := [t[4], t[5]];
    assert Feeds(t[2], outs) && Feeds(t[3], outs) by { assert outs[0].inIndex == 1; }
    KeepNine(t, c => IsInternal(c, outs));
  }

  /** The input layer of the test connections: the connection into hidden node 2 leads nowhere. */
  lemma LayeringTestInput()
    ensures Keep(LAYERING_TEST, c => IsInput(c, [LAYERING_TEST[2], LAYERING_TEST[3]], [LAYERING_TEST[4], LAYERING_TEST[5]])) == [LAYERING_TEST[1]]
  {
    var t := LAYERING_TEST;
    var outs, internal := [t[4], t[5]], [t[2], t[3]];
    assert Feeds(t[1], internal) by { assert internal[1].inIndex == 1; }
    KeepNine(t, c => IsInput(c, internal, outs));
  }

  /** Only hidden node 1 holds a value in the test system. */
  lemma LayeringTestIds()
    ensures TargetIds([LAYERING_TEST[1], LAYERING_TEST[2], LAYERING_TEST[3]]) == {1}
  {
    var chain := [LAYERING_TEST[1], LAYERING_TEST[2], LAYERING_TEST[3]];
    assert chain[0].outIndex == 1;
  }

  /** The layering test: one direct, one input, two internal and two output connections, and one
      hidden node holding a value. */
  method LayeringTest() returns (direct: nat, input: nat, internal: nat, outs: nat, ids: nat)
    ensures direct == 1 && input == 1 && internal == 2 && outs == 2 && ids == 1
  {
    LayeringTestOuter();
    LayeringTestInternal();
    LayeringTestInput();
    LayeringTestIds();
    var d, i, n, o, s := ProcessConnections(LAYERING_TEST);
    assert i + n == [LAYERING_TEST[1], LAYERING_TEST[2], LAYERING_TEST[3]];
    direct, input, internal, outs, ids := |d|, |i|, |n|, |o|, |s|;
  }
}
