/** A genome is the list of connection genes of one organism (src/components/genome.rs). */
module Genomes {
  import opened Genes
  import opened Wrappers

  datatype Genome = Genome(genes: seq<Gene>)

  /** A fresh genome of `len` random genes; the random draws are a nondeterministic choice. */
  method New(len: nat) returns (g: Genome)
    ensures |g.genes| == len
  {
    var genes: seq<Gene> := [];
    while |genes| < len
      invariant |genes| <= len
      decreases len - |genes|
    {
      var draw: Gene :| true;
      genes := genes + [draw];
    }
    g := Genome(genes);
  }

  /** One random outcome of the per-gene coin flip: keep the gene, or flip the bit at `pos`.
      The position is drawn from 0..31 exclusive, so bit 31 is never a candidate. */
  datatype Mutation = Keep | Flip(pos: bv5)

  predicate ValidMutation(m: Mutation) {
    m.Flip? ==> m.pos < 31
  }

  /** The draws a probability `mutP` admits: none flips at rate 0, every gene flips at rate 1. */
  predicate Admissible(mutP: real, muts: seq<Mutation>) {
    && 0.0 <= mutP <= 1.0
    && (forall i :: 0 <= i < |muts| ==> ValidMutation(muts[i]))
    && (mutP == 0.0 ==> forall i :: 0 <= i < |muts| ==> muts[i] == Keep)
    && (mutP == 1.0 ==> forall i :: 0 <= i < |muts| ==> muts[i].Flip?)
  }

  function Mutate(g: Gene, m: Mutation): Gene {
    match m
    case Keep => g
    case Flip(pos) => FlipBit(g, pos)
  }

  /** The copy handed to an offspring: gene by gene, the drawn mutation applied.
      The rate must lie in [0, 1], as the Bernoulli draw of the source panics otherwise. */
  function Replicate(parent: Genome, mutP: real, muts: seq<Mutation>): (child: Genome)
    requires |muts| == |parent.genes| && Admissible(mutP, muts)
    ensures |child.genes| == |parent.genes|
  {
    Genome(seq(|parent.genes|, i requires 0 <= i < |parent.genes| => Mutate(parent.genes[i], muts[i])))
  }

  /** Two genes differ in at most one bit, and that bit is not bit 31. */
  predicate OneBitApart(a: Gene, b: Gene) {
    var x := a ^ b;
    x & (x - 1) == 0 && x & 0x8000_0000 == 0
  }

  /** A child is a replica of the parent when each gene is the parent's gene or that gene with
      one bit among 0-30 flipped. */
  ghost predicate IsReplica(parent: Genome, child: Genome) {
    && |child.genes| == |parent.genes|
    && forall i :: 0 <= i < |parent.genes| ==>
         child.genes[i] == parent.genes[i]
         || exists pos: bv5 :: pos < 31 && child.genes[i] == FlipBit(parent.genes[i], pos)
  }

  lemma FlipIsOneBitApart(g: Gene, pos: bv5)
    requires pos < 31
    ensures OneBitApart(g, FlipBit(g, pos))
    ensures TopBit(FlipBit(g, pos)) == TopBit(g)
  {
  }

  /** Every outcome of `Replicate` is a replica, keeps bit 31 of each gene and changes at most one bit per gene. */
  lemma ReplicateSound(parent: Genome, mutP: real, muts: seq<Mutation>)
    requires |muts| == |parent.genes| && Admissible(mutP, muts)
    ensures var child := Replicate(parent, mutP, muts);
      && IsReplica(parent, child)
      && forall i :: 0 <= i < |parent.genes| ==>
           OneBitApart(parent.genes[i], child.genes[i]) && TopBit(child.genes[i]) == TopBit(parent.genes[i])
  {
    var child := Replicate(parent, mutP, muts);
    forall i | 0 <= i < |parent.genes|
      ensures OneBitApart(parent.genes[i], child.genes[i]) && TopBit(child.genes[i]) == TopBit(parent.genes[i])
    {
      if muts[i].Flip? {
        FlipIsOneBitApart(parent.genes[i], muts[i].pos);
      }
    }
  }

  /** Every replica is the outcome of some admissible draw at any rate strictly between 0 and 1. */
  lemma {:induction false} ReplicateComplete(parent: Genome, child: Genome, mutP: real)
    requires 0.0 < mutP < 1.0
    requires IsReplica(parent, child)
    ensures exists muts :: |muts| == |parent.genes| && Admissible(mutP, muts) && Replicate(parent, mutP, muts) == child
  {
    var muts := seq(|parent.genes|, i requires 0 <= i < |parent.genes| => DrawFor(parent.genes[i], child.genes[i]));
    assert Replicate(parent, mutP, muts).genes == child.genes;
  }

  /** The draw that turns gene `a` into gene `b`, when there is one. */
  ghost function DrawFor(a: Gene, b: Gene): (m: Mutation)
    requires b == a || exists pos: bv5 :: pos < 31 && b == FlipBit(a, pos)
    ensures ValidMutation(m) && Mutate(a, m) == b
  {
    if b == a then Keep
    else
      var pos: bv5 :| pos < 31 && b == FlipBit(a, pos);
      Flip(pos)
  }

  /** At rate 0 the child equals the parent. */
  lemma ReplicateAtRateZero(parent: Genome, muts: seq<Mutation>)
    requires |muts| == |parent.genes| && Admissible(0.0, muts)
    ensures Replicate(parent, 0.0, muts) == parent
  {
    assert Replicate(parent, 0.0, muts).genes == parent.genes;
  }

  /** The input-type bit 30 is among the candidates: a replica can turn an input sensor into an internal node. */
  lemma ReplicateCanFlipInType(parent: Genome)
    requires |parent.genes| > 0
    ensures var muts := seq(|parent.genes|, i => if i == 0 then Flip(30) else Keep);
      && Admissible(0.5, muts)
      && InType(Replicate(parent, 0.5, muts).genes[0]) != InType(parent.genes[0])
  {
    FlipInTypeBit(parent.genes[0]);
  }

  // ---- distance ----

  function Abs(x: real): real { if x < 0.0 then -x else x }

  /** Contribution of one aligned pair: 1 when the wiring differs, else the weight difference. */
  function PairDistance(a: Gene, b: Gene): (d: real)
    ensures 0.0 <= d
    ensures !SameWiring(a, b) ==> d == 1.0
    ensures d == 0.0 <==> SameWiring(a, b) && Weight(a) == Weight(b)
  {
    if SameWiring(a, b) then Abs(WeightF(a) - WeightF(b)) else 1.0
  }

  predicate SameWiring(a: Gene, b: Gene) {
    InType(a) == InType(b) && OutType(a) == OutType(b) && InIndex(a) == InIndex(b) && OutIndex(a) == OutIndex(b)
  }

  function Min(a: nat, b: nat): nat { if a < b then a else b }

  /** Sum of the pair contributions over the first `n` aligned positions. */
  function SumPairs(a: seq<Gene>, b: seq<Gene>, n: nat): (s: real)
    requires n <= |a| && n <= |b|
    ensures 0.0 <= s
  {
    if n == 0 then 0.0 else SumPairs(a, b, n - 1) + PairDistance(a[n - 1], b[n - 1])
  }

  function Clamp01(x: real): (r: real)
    ensures 0.0 <= r <= 1.0
    ensures 0.0 <= x <= 1.0 ==> r == x
  {
    if x < 0.0 then 0.0 else if x > 1.0 then 1.0 else x
  }

  /** Genetic distance: the zipped sum divided by the length of `other`, clamped to [0, 1].
      An empty `other` makes the source divide 0 by 0, a NaN that survives the clamp: `None`. */
  function Distance(self: Genome, other: Genome): (d: Option<real>)
    ensures d.None? <==> |other.genes| == 0
    ensures d.Some? ==> 0.0 <= d.value <= 1.0
  {
    if |other.genes| == 0 then None
    else Some(Clamp01(SumPairs(self.genes, other.genes, Min(|self.genes|, |other.genes|)) / |other.genes| as real))
  }

  /** The accumulating loop of the source, proved to compute `Distance`. */
  method GetDistance(self: Genome, other: Genome) returns (d: Option<real>)
    ensures d == Distance(self, other)
  {
    var n := Min(|self.genes|, |other.genes|);
    var distance := 0.0;
    var i := 0;
    while i < n
      invariant i <= n
      invariant distance == SumPairs(self.genes, other.genes, i)
    {
      var g1, g2 := self.genes[i], other.genes[i];
      if InType(g1) == InType(g2) && OutType(g1) == OutType(g2)
         && InIndex(g1) == InIndex(g2) && OutIndex(g1) == OutIndex(g2)
      {
        distance := distance + Abs(WeightF(g1) - WeightF(g2));
      } else {
        distance := distance + 1.0;
      }
      i := i + 1;
    }
    if |other.genes| == 0 {
      d := None;
    } else {
      d := Some(Clamp01(distance / |other.genes| as real));
    }
  }

  lemma {:induction false} SumPairsSelf(a: seq<Gene>, n: nat)
    requires n <= |a|
    ensures SumPairs(a, a, n) == 0.0
  {
    if n > 0 {
      SumPairsSelf(a, n - 1);
    }
  }

  lemma PairDistanceSymmetric(a: Gene, b: Gene)
    ensures PairDistance(a, b) == PairDistance(b, a)
  {
    if SameWiring(a, b) {
      assert Abs(WeightF(a) - WeightF(b)) == Abs(WeightF(b) - WeightF(a));
    }
  }

  lemma {:induction false} SumPairsSymmetric(a: seq<Gene>, b: seq<Gene>, n: nat)
    requires n <= |a| && n <= |b|
    ensures SumPairs(a, b, n) == SumPairs(b, a, n)
  {
    if n > 0 {
      SumPairsSymmetric(a, b, n - 1);
      PairDistanceSymmetric(a[n - 1], b[n - 1]);
    }
  }

  /** A non-empty genome is at distance 0 from itself. */
  lemma DistanceToSelf(g: Genome)
    requires |g.genes| > 0
    ensures Distance(g, g) == Some(0.0)
  {
    SumPairsSelf(g.genes, |g.genes|);
  }

  /** For genomes of equal length the distance is symmetric. */
  lemma DistanceSymmetricEqualLength(a: Genome, b: Genome)
    requires |a.genes| == |b.genes|
    ensures Distance(a, b) == Distance(b, a)
  {
    SumPairsSymmetric(a.genes, b.genes, |a.genes|);
  }

  /** For genomes of different lengths it is not: one differing gene against two genes gives 1/2 one way and 1 the other. */
  lemma DistanceAsymmetric()
    ensures var a := Genome([0x527d0683]);
      var b := Genome([0x727d0683, 0x727d0683]);
      Distance(a, b) == Some(0.5) && Distance(b, a) == Some(1.0)
  {
    var a := Genome([0x527d0683]);
    var b := Genome([0x727d0683, 0x727d0683]);
    assert OutType(a.genes[0]) == 0 && OutType(b.genes[0]) == 1;
  }

  /** The distance test: equal first genes, a weight difference in the second, different wiring in the third. */
  lemma DistanceTestVector()
    ensures var g1 := Genome([0x527d0683, 0x727d0683, 0x727f0683]);
      var g2 := Genome([0x527d0683, 0x727d0483, 0x72ff0683]);
      Distance(g1, g2) == Some((Abs(WeightF(0x727d0683) - WeightF(0x727d0483)) + 1.0) / 3.0)
  {
    var g1 := Genome([0x527d0683, 0x727d0683, 0x727f0683]);
    var g2 := Genome([0x527d0683, 0x727d0483, 0x72ff0683]);
    assert Weight(0x727d0683) == 1667 && Weight(0x727d0483) == 1155;
    assert SameWiring(g1.genes[1], g2.genes[1]);
    assert InIndex(g1.genes[2]) == 73 && InIndex(g2.genes[2]) == 75;
    assert PairDistance(g1.genes[0], g2.genes[0]) == 0.0;
    assert PairDistance(g1.genes[2], g2.genes[2]) == 1.0;
    var d1 := PairDistance(g1.genes[1], g2.genes[1]);
    assert SumPairs(g1.genes, g2.genes, 3) == d1 + 1.0;
  }
}
