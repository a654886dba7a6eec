/** Greedy seed-based species clustering of the initial population. Genomes are visited in index order;
    a genome not yet assigned seeds a new species, and every still unassigned genome whose distance from
    the seed is below the threshold joins it. */
module Clustering {
  import opened Wrappers
  import opened Genes
  import opened Genomes
  import Graphs

  /** Genome `j` is close enough to `seed` to join its species. A distance that is not a number (an empty
      genome) compares false, so it never joins. */
  predicate Joins(genomes: seq<Genome>, threshold: real, seed: nat, j: nat)
    requires seed < |genomes| && j < |genomes|
  {
    var d := Distance(genomes[seed], genomes[j]);
    d.Some? && d.value < threshold
  }

  /** The genome whose species `j` ends up in: the first earlier seed it joins, or `j` itself, which then
      seeds a species of its own. A genome is a seed exactly when it is its own owner. */
  function Owner(genomes: seq<Genome>, threshold: real, j: nat): (o: nat)
    requires j < |genomes|
    ensures o <= j
    decreases j, 1, 0
  {
    OwnerFrom(genomes, threshold, j, 0)
  }

  /** The first seed among `i`..`j-1` that `j` joins, or `j` when there is none. */
  function OwnerFrom(genomes: seq<Genome>, threshold: real, j: nat, i: nat): (o: nat)
    requires i <= j < |genomes|
    ensures i <= o <= j
    decreases j, 0, j - i
  {
    if i == j then j
    else if Owner(genomes, threshold, i) == i && Joins(genomes, threshold, i, j) then i
    else OwnerFrom(genomes, threshold, j, i + 1)
  }

  predicate IsSeed(genomes: seq<Genome>, threshold: real, j: nat)
    requires j < |genomes|
  {
    Owner(genomes, threshold, j) == j
  }

  /** Number of seeds among the first `j` genomes: the species id the next seed receives. */
  function SeedCount(genomes: seq<Genome>, threshold: real, j: nat): (c: nat)
    requires j <= |genomes|
    ensures c <= j
  {
    if j == 0 then 0
    else SeedCount(genomes, threshold, j - 1) + (if IsSeed(genomes, threshold, j - 1) then 1 else 0)
  }

  /** The species id genome `j` receives: the rank of its owner among the seeds. */
  function SpeciesOf(genomes: seq<Genome>, threshold: real, j: nat): (id: nat)
    requires j < |genomes|
    ensures id <= j
  {
    SeedCount(genomes, threshold, Owner(genomes, threshold, j))
  }

  /** The owner is a seed that the genome joins, and no earlier seed is joined by it. */
  lemma {:induction false} OwnerFromSpec(genomes: seq<Genome>, threshold: real, j: nat, i: nat)
    requires i <= j < |genomes|
    ensures var o := OwnerFrom(genomes, threshold, j, i);
      && (o < j ==> IsSeed(genomes, threshold, o) && Joins(genomes, threshold, o, j))
      && forall s :: i <= s < o ==> !(IsSeed(genomes, threshold, s) && Joins(genomes, threshold, s, j))
    decreases j - i
  {
    if i < j && !(IsSeed(genomes, threshold, i) && Joins(genomes, threshold, i, j)) {
      OwnerFromSpec(genomes, threshold, j, i + 1);
    }
  }

  /** A genome joins the species of the first earlier seed it is close to; with none, it is a seed. */
  lemma OwnerSpec(genomes: seq<Genome>, threshold: real, j: nat)
    requires j < |genomes|
    ensures var o := Owner(genomes, threshold, j);
      && (o < j ==> IsSeed(genomes, threshold, o) && Joins(genomes, threshold, o, j))
      && forall s :: 0 <= s < o ==> !(IsSeed(genomes, threshold, s) && Joins(genomes, threshold, s, j))
  {
    OwnerFromSpec(genomes, threshold, j, 0);
  }

  /** After seed `i` has been processed, a later genome is still unassigned exactly when neither `i`
      nor an earlier seed claimed it. */
  lemma Unclaimed(genomes: seq<Genome>, threshold: real, i: nat, j: nat)
    requires i < j < |genomes| && Owner(genomes, threshold, j) >= i
    ensures Owner(genomes, threshold, j) == i <==> IsSeed(genomes, threshold, i) && Joins(genomes, threshold, i, j)
  {
    OwnerSpec(genomes, threshold, j);
  }

  /** Writes `id` into every listed slot, in whatever order the set yields them. */
  method AssignAll(data: seq<nat>, members: set<nat>, id: nat) returns (r: seq<nat>)
    ensures |r| == |data|
    ensures forall j :: 0 <= j < |data| ==> r[j] == (if j in members then id else data[j])
  {
    r := data;
    var todo := members;
    while todo != {}
      invariant todo <= members
      invariant |r| == |data|
      invariant forall j :: 0 <= j < |data| ==> r[j] == (if j in members - todo then id else data[j])
      decreases todo
    {
      var j :| j in todo;
      if j < |r| {
        r := r[j := id];
      }
      todo := todo - {j};
    }
  }

  /** The state of the clustering loop once the first `i` genomes have been visited: the unassigned
      genomes are the later ones no seed so far claimed, every claimed genome holds its species id, and
      the ids handed out are 0 up to the number of seeds met. */
  ghost predicate Visited(genomes: seq<Genome>, threshold: real, i: nat, data: seq<nat>,
                          unassigned: set<nat>, counter: nat, species: set<nat>)
    requires i <= |genomes|
  {
    && |data| == |genomes|
    && (forall j :: j in unassigned <==> i <= j < |genomes| && Owner(genomes, threshold, j) >= i)
    && (forall j :: 0 <= j < |genomes| && Owner(genomes, threshold, j) < i ==> data[j] == SpeciesOf(genomes, threshold, j))
    && counter == SeedCount(genomes, threshold, i)
    && species == Graphs.Range(0, counter)
  }

  /** The clustering loop. Members are assigned in whatever order the unassigned set yields them; the
      contract fixes the result whatever that order is. */
  method ClusterSpecies(genomes: seq<Genome>, threshold: real) returns (data: seq<nat>, species: set<nat>)
    ensures |data| == |genomes|
    ensures forall j :: 0 <= j < |genomes| ==> data[j] == SpeciesOf(genomes, threshold, j)
    ensures species == Graphs.Range(0, SeedCount(genomes, threshold, |genomes|))
  {
    var n := |genomes|;
    data := seq(n, _ => 0);
    var unassigned := Graphs.Range(0, n);
    species := {};
    var counter := 0;
    assert forall j :: j in unassigned <==> 0 <= j < n && Owner(genomes, threshold, j) >= 0;
    for i := 0 to n
      invariant Visited(genomes, threshold, i, data, unassigned, counter, species)
    {
      data, unassigned, counter, species := VisitGenome(genomes, threshold, i, data, unassigned, counter, species);
    }
  }

  /** One turn of the loop: an unassigned genome seeds a new species and takes every unassigned genome
      close to it along; an assigned one is skipped. */
  method VisitGenome(genomes: seq<Genome>, threshold: real, i: nat, data: seq<nat>, unassigned: set<nat>,
                     counter: nat, species: set<nat>)
    returns (data': seq<nat>, unassigned': set<nat>, counter': nat, species': set<nat>)
    requires i < |genomes| && Visited(genomes, threshold, i, data, unassigned, counter, species)
    ensures Visited(genomes, threshold, i + 1, data', unassigned', counter', species')
  {
    if i in unassigned {
      var rest := unassigned - {i};
      var members := set j | j in rest && Joins(genomes, threshold, i, j);
      data' := AssignAll(data[i := counter], members, counter);
      SeedVisited(genomes, threshold, i, data, unassigned, counter, species, members, data');
      unassigned' := rest - members;
      species' := species + {counter};
      counter' := counter + 1;
    } else {
      SkipVisited(genomes, threshold, i, data, unassigned, counter, species);
      data', unassigned', counter', species' := data, unassigned, counter, species;
    }
  }

  /** Visiting an unassigned genome: it seeds species `counter` and claims its members. */
  lemma SeedVisited(genomes: seq<Genome>, threshold: real, i: nat, data: seq<nat>, unassigned: set<nat>,
                    counter: nat, species: set<nat>, members: set<nat>, data': seq<nat>)
    requires i < |genomes| && Visited(genomes, threshold, i, data, unassigned, counter, species)
    requires i in unassigned
    requires members == set j | j in unassigned - {i} && Joins(genomes, threshold, i, j)
    requires |data'| == |data|
    requires forall j :: 0 <= j < |data| ==> data'[j] == (if j in members then counter else data[i := counter][j])
    ensures Visited(genomes, threshold, i + 1, data', unassigned - {i} - members, counter + 1, species + {counter})
  {
    assert IsSeed(genomes, threshold, i);
    assert SeedCount(genomes, threshold, i + 1) == counter + 1;
    Claim(genomes, threshold, i, unassigned - {i}, members);
    ClaimData(genomes, threshold, i, data, data', members, counter);
  }

  /** Visiting an assigned genome changes nothing: no later genome is its member. */
  lemma SkipVisited(genomes: seq<Genome>, threshold: real, i: nat, data: seq<nat>, unassigned: set<nat>,
                    counter: nat, species: set<nat>)
    requires i < |genomes| && Visited(genomes, threshold, i, data, unassigned, counter, species)
    requires i !in unassigned
    ensures Visited(genomes, threshold, i + 1, data, unassigned, counter, species)
  {
    assert !IsSeed(genomes, threshold, i);
    assert SeedCount(genomes, threshold, i + 1) == counter;
    forall j | 0 <= j < |genomes|
      ensures Owner(genomes, threshold, j) != i
    {
      OwnerIsSeed(genomes, threshold, j);
    }
  }

  /** Every genome's owner is a seed. */
  lemma OwnerIsSeed(genomes: seq<Genome>, threshold: real, j: nat)
    requires j < |genomes|
    ensures IsSeed(genomes, threshold, Owner(genomes, threshold, j))
  {
    OwnerSpec(genomes, threshold, j);
  }

  /** Seed `i` claims exactly the unassigned genomes it owns; the rest stay unassigned. */
  lemma Claim(genomes: seq<Genome>, threshold: real, i: nat, unassigned: set<nat>, members: set<nat>)
    requires i < |genomes|
    requires forall j :: j in unassigned <==> i < j < |genomes| && Owner(genomes, threshold, j) >= i
    requires members == set j | j in unassigned && Joins(genomes, threshold, i, j)
    requires IsSeed(genomes, threshold, i)
    ensures forall j :: j in members <==> i < j < |genomes| && Owner(genomes, threshold, j) == i
    ensures forall j :: j in unassigned - members <==> i + 1 <= j < |genomes| && Owner(genomes, threshold, j) >= i + 1
  {
    forall j | i < j < |genomes| && Owner(genomes, threshold, j) >= i
      ensures Owner(genomes, threshold, j) == i <==> j in members
    {
      Unclaimed(genomes, threshold, i, j);
    }
  }

  /** After seed `i` and its members are written, every genome owned by a seed up to `i` holds its id. */
  lemma ClaimData(genomes: seq<Genome>, threshold: real, i: nat, before: seq<nat>, data: seq<nat>,
                  members: set<nat>, counter: nat)
    requires i < |genomes| && |before| == |genomes| && |data| == |genomes|
    requires IsSeed(genomes, threshold, i) && counter == SeedCount(genomes, threshold, i)
    requires forall j :: 0 <= j < |genomes| && Owner(genomes, threshold, j) < i ==> before[j] == SpeciesOf(genomes, threshold, j)
    requires forall j :: 0 <= j < |data| ==> data[j] == (if j in members then counter else before[i := counter][j])
    requires forall j :: j in members <==> i < j < |genomes| && Owner(genomes, threshold, j) == i
    ensures forall j :: 0 <= j < |genomes| && Owner(genomes, threshold, j) < i + 1 ==> data[j] == SpeciesOf(genomes, threshold, j)
  {
    forall j | 0 <= j < |genomes| && Owner(genomes, threshold, j) < i + 1
      ensures data[j] == SpeciesOf(genomes, threshold, j)
    {
      if Owner(genomes, threshold, j) < i {
        assert j !in members && j != i;
      }
    }
  }

  // ---- properties of the clustering ----

  /** A genome becomes a seed exactly when it joins no earlier seed. */
  lemma SeedIff(genomes: seq<Genome>, threshold: real, j: nat)
    requires j < |genomes|
    ensures IsSeed(genomes, threshold, j) <==>
      forall s :: 0 <= s < j ==> !(IsSeed(genomes, threshold, s) && Joins(genomes, threshold, s, j))
  {
    OwnerSpec(genomes, threshold, j);
  }

  lemma {:induction false} SeedCountMonotone(genomes: seq<Genome>, threshold: real, a: nat, b: nat)
    requires a <= b <= |genomes|
    ensures SeedCount(genomes, threshold, a) <= SeedCount(genomes, threshold, b)
    decreases b
  {
    if a < b {
      SeedCountMonotone(genomes, threshold, a, b - 1);
    }
  }

  /** Different seeds receive different species ids, in seed order. */
  lemma SeedIdsIncrease(genomes: seq<Genome>, threshold: real, a: nat, b: nat)
    requires a < b < |genomes|
    requires IsSeed(genomes, threshold, a)
    ensures SeedCount(genomes, threshold, a) < SeedCount(genomes, threshold, b)
  {
    SeedCountMonotone(genomes, threshold, a + 1, b);
  }

  /** Every species id below the final count belongs to a seed: the ids are consecutive from 0. */
  lemma {:induction false} EveryIdHasSeed(genomes: seq<Genome>, threshold: real, n: nat, k: nat)
    requires n <= |genomes| && k < SeedCount(genomes, threshold, n)
    ensures exists s :: 0 <= s < n && IsSeed(genomes, threshold, s) && SeedCount(genomes, threshold, s) == k
  {
    if k < SeedCount(genomes, threshold, n - 1) {
      EveryIdHasSeed(genomes, threshold, n - 1, k);
    } else {
      assert IsSeed(genomes, threshold, n - 1) && SeedCount(genomes, threshold, n - 1) == k;
    }
  }

  /** The first genome always seeds species 0. */
  lemma FirstGenomeSeedsSpeciesZero(genomes: seq<Genome>, threshold: real)
    requires |genomes| > 0
    ensures IsSeed(genomes, threshold, 0) && SeedCount(genomes, threshold, Owner(genomes, threshold, 0)) == 0
  {
  }

  // ---- the clustering test ----

  function TestGenomes(): seq<Genome> {
    [ Genome([0x527d0683, 0x727d0683, 0x727f0683]),
      Genome([0x527d0683, 0x727d0683, 0x727f0683]),
      Genome([0x527d0687, 0x727d0683, 0x727f0683]),
      Genome([0x527d0683, 0x727d0483, 0x72ff0683]),
      Genome([0x527d0683, 0x727d0493, 0x72ff0683]),
      Genome([0x726d2683, 0x326d1493, 0x52fd2683]) ]
  }

  /** The distance between two three-gene genomes is the mean of the three pair contributions, clamped. */
  lemma DistanceOfThree(a: Genome, b: Genome)
    requires |a.genes| == 3 && |b.genes| == 3
    ensures Distance(a, b) == Some(Clamp01(SumPairs(a.genes, b.genes, 3) / 3.0))
  {
  }

  /** No single pair contributes more than the sum. */
  lemma {:induction false} SumPairsAtLeast(a: seq<Gene>, b: seq<Gene>, n: nat, k: nat)
    requires k < n <= |a| && n <= |b|
    ensures SumPairs(a, b, n) >= PairDistance(a[k], b[k])
  {
    if k < n - 1 {
      SumPairsAtLeast(a, b, n - 1, k);
    }
  }

  /** A genome whose wiring differs from the seed's in one gene of three is at distance at least 1/3. */
  lemma {:induction false} FarApart(a: Genome, b: Genome, k: nat)
    requires |a.genes| == 3 && |b.genes| == 3 && k < 3
    requires !SameWiring(a.genes[k], b.genes[k])
    ensures Distance(a, b).Some? && Distance(a, b).value >= 1.0 / 3.0
  {
    DistanceOfThree(a, b);
    SumPairsAtLeast(a.genes, b.genes, 3, k);
  }

  /** Two genes with the same wiring whose raw weights differ by `delta` are `delta / 8191` apart. */
  lemma {:induction false} WeightDelta(a: Gene, b: Gene, delta: nat)
    requires SameWiring(a, b) && Weight(b) == Weight(a) + delta
    ensures PairDistance(a, b) == delta as real / 8191.0
  {
    var wa := Weight(a);
    assert WeightF(a) == (wa - 0x4000) as real / 8191.0;
    assert WeightF(b) == (wa + delta - 0x4000) as real / 8191.0;
  }

  /** A gene is at distance 0 from itself. */
  lemma PairDistanceSelf(g: Gene)
    ensures PairDistance(g, g) == 0.0
  {
    assert SameWiring(g, g);
  }

  /** Two three-gene genomes that differ only in the weight of gene `k` sum to that gene's contribution. */
  lemma SumOfWeightApart(a: Genome, b: Genome, k: nat, delta: nat)
    requires |a.genes| == 3 && |b.genes| == 3 && k < 3
    requires forall i :: 0 <= i < 3 && i != k ==> a.genes[i] == b.genes[i]
    requires SameWiring(a.genes[k], b.genes[k]) && Weight(b.genes[k]) == Weight(a.genes[k]) + delta
    ensures SumPairs(a.genes, b.genes, 3) == delta as real / 8191.0
  {
    PairsOfWeightApart(a, b, k, delta);
    SumPairsSingle(a.genes, b.genes, 3, k);
  }

  /** A sum whose pairs all contribute 0 but pair `k` is that pair's contribution. */
  lemma {:induction false} SumPairsSingle(a: seq<Gene>, b: seq<Gene>, n: nat, k: nat)
    requires k < n <= |a| && n <= |b|
    requires forall i :: 0 <= i < n && i != k ==> PairDistance(a[i], b[i]) == 0.0
    ensures SumPairs(a, b, n) == PairDistance(a[k], b[k])
  {
    if k < n - 1 {
      SumPairsSingle(a, b, n - 1, k);
    } else {
      SumPairsZero(a, b, n - 1);
    }
  }

  /** A sum whose pairs all contribute 0 is 0. */
  lemma {:induction false} SumPairsZero(a: seq<Gene>, b: seq<Gene>, n: nat)
    requires n <= |a| && n <= |b|
    requires forall i :: 0 <= i < n ==> PairDistance(a[i], b[i]) == 0.0
    ensures SumPairs(a, b, n) == 0.0
  {
    if n > 0 {
      SumPairsZero(a, b, n - 1);
    }
  }

  /** Pair by pair, two genomes that differ only in the weight of gene `k`. */
  lemma PairsOfWeightApart(a: Genome, b: Genome, k: nat, delta: nat)
    requires |a.genes| == 3 && |b.genes| == 3 && k < 3
    requires forall i :: 0 <= i < 3 && i != k ==> a.genes[i] == b.genes[i]
    requires SameWiring(a.genes[k], b.genes[k]) && Weight(b.genes[k]) == Weight(a.genes[k]) + delta
    ensures forall i :: 0 <= i < 3 ==>
      PairDistance(a.genes[i], b.genes[i]) == if i == k then delta as real / 8191.0 else 0.0
  {
    forall i | 0 <= i < 3
      ensures PairDistance(a.genes[i], b.genes[i]) == if i == k then delta as real / 8191.0 else 0.0
    {
      if i == k {
        WeightDelta(a.genes[k], b.genes[k], delta);
      } else {
        PairDistanceSelf(a.genes[i]);
      }
    }
  }

  /** Two three-gene genomes that differ only in the weight of gene `k`, by `delta` raw units. */
  lemma {:induction false} WeightApart(a: Genome, b: Genome, k: nat, delta: nat)
    requires |a.genes| == 3 && |b.genes| == 3 && k < 3 && delta <= 8191
    requires forall i :: 0 <= i < 3 && i != k ==> a.genes[i] == b.genes[i]
    requires SameWiring(a.genes[k], b.genes[k]) && Weight(b.genes[k]) == Weight(a.genes[k]) + delta
    ensures Distance(a, b) == Some(delta as real / 8191.0 / 3.0)
  {
    DistanceOfThree(a, b);
    SumOfWeightApart(a, b, k, delta);
  }

  /** Which genomes of the clustering test are close enough to which seeds, at threshold 0.1. */
  lemma TestJoins()
    ensures var g := TestGenomes();
      && Joins(g, 0.1, 0, 1) && Joins(g, 0.1, 0, 2) && Joins(g, 0.1, 3, 4)
      && !Joins(g, 0.1, 0, 3) && !Joins(g, 0.1, 0, 4) && !Joins(g, 0.1, 0, 5) && !Joins(g, 0.1, 3, 5)
  {
    var g := TestGenomes();
    assert Joins(g, 0.1, 0, 1) by { DistanceToSelf(g[0]); }
    assert Joins(g, 0.1, 0, 2) by { WeightApart(g[0], g[2], 0, 4); }
    assert Joins(g, 0.1, 3, 4) by { WeightApart(g[3], g[4], 1, 16); }
    assert !Joins(g, 0.1, 0, 3) by { FarApart(g[0], g[3], 2); }
    assert !Joins(g, 0.1, 0, 4) by { FarApart(g[0], g[4], 2); }
    assert !Joins(g, 0.1, 0, 5) by { FarApart(g[0], g[5], 0); }
    assert !Joins(g, 0.1, 3, 5) by { FarApart(g[3], g[5], 0); }
  }

  /** Six genomes with the joins of the clustering test have genomes 0, 3 and 5 as their seeds. */
  lemma OwnersOfTestShape(g: seq<Genome>, t: real)
    requires |g| == 6
    requires Joins(g, t, 0, 1) && Joins(g, t, 0, 2) && Joins(g, t, 3, 4)
    requires !Joins(g, t, 0, 3) && !Joins(g, t, 0, 4) && !Joins(g, t, 0, 5) && !Joins(g, t, 3, 5)
    ensures forall j :: 0 <= j < 6 ==> Owner(g, t, j) == [0, 0, 0, 3, 3, 5][j]
  {
    assert Owner(g, t, 0) == 0;
    assert Owner(g, t, 1) == 0;
    assert Owner(g, t, 2) == 0;
    assert OwnerFrom(g, t, 3, 1) == 3;
    assert Owner(g, t, 3) == 3;
    assert OwnerFrom(g, t, 4, 1) == 3;
    assert Owner(g, t, 4) == 3;
    assert OwnerFrom(g, t, 5, 4) == 5;
    assert OwnerFrom(g, t, 5, 1) == 5;
    assert Owner(g, t, 5) == 5;
  }

  /** With seeds 0, 3 and 5 among six genomes, the species ids are [0, 0, 0, 1, 1, 2]. */
  lemma SeedCountsOfTestShape(g: seq<Genome>, t: real)
    requires |g| == 6
    requires forall j :: 0 <= j < 6 ==> Owner(g, t, j) == [0, 0, 0, 3, 3, 5][j]
    ensures SeedCount(g, t, 6) == 3
    ensures forall j :: 0 <= j < 6 ==> SeedCount(g, t, Owner(g, t, j)) == [0, 0, 0, 1, 1, 2][j]
  {
    var owners := [0, 0, 0, 3, 3, 5];
    assert Owner(g, t, 0) == owners[0] && Owner(g, t, 1) == owners[1] && Owner(g, t, 2) == owners[2];
    assert Owner(g, t, 3) == owners[3] && Owner(g, t, 4) == owners[4] && Owner(g, t, 5) == owners[5];
    assert SeedCount(g, t, 1) == 1;
    assert SeedCount(g, t, 2) == 1;
    assert SeedCount(g, t, 3) == 1;
    assert SeedCount(g, t, 4) == 2;
    assert SeedCount(g, t, 5) == 2;
    assert SeedCount(g, t, 6) == 3;
  }

  /** The clustering test at threshold 0.1: species [0, 0, 0, 1, 1, 2], three species in all. */
  lemma {:induction false} ClusteringTestVector()
    ensures var g := TestGenomes();
      && SeedCount(g, 0.1, 6) == 3
      && forall j :: 0 <= j < 6 ==> SeedCount(g, 0.1, Owner(g, 0.1, j)) == [0, 0, 0, 1, 1, 2][j]
  {
    TestJoins();
    OwnersOfTestShape(TestGenomes(), 0.1);
    SeedCountsOfTestShape(TestGenomes(), 0.1);
  }
}
