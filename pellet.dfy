/** The pellet rule (src/systems/simulation_system/generate_pellets.rs): how many pellets a population
    of `n` entities receives, and where they go. */
module Pellets {
  import opened Coords
  import opened Grids

  /** `100 * (250 / n)` in integer arithmetic, clamped to 0..n. The source divides by `n`, so a caller
      must not pass 0, which the epoch code guards. */
  function PelletCount(n: nat): (c: nat)
    requires n > 0
    ensures c <= n
  {
    var v := 100 * (250 / n);
    if v > n then n else v
  }

  /** The count in closed form: every entity gets a pellet up to 125 entities, 100 pellets up to 250,
      and none beyond. */
  lemma PelletCountClosedForm(n: nat)
    requires n > 0
    ensures PelletCount(n) == if n <= 125 then n else if n <= 250 then 100 else 0
  {
  }

  /** Picks `PelletCount(n)` distinct Empty cells, or all of them when there are fewer; which ones, and
      in which order, is the random draw's choice. */
  method GeneratePellets(n: nat, grid: Grid) returns (pellets: seq<Coord>)
    requires n > 0
    ensures |pellets| == if PelletCount(n) < |grid.GetCellCoords(Empty)| then PelletCount(n) else |grid.GetCellCoords(Empty)|
    ensures forall c :: c in pellets ==>
      0 <= c.x < grid.data.Length0 && 0 <= c.y < grid.data.Length1 && grid.data[c.x, c.y] == Empty
    ensures forall i, j :: 0 <= i < j < |pellets| ==> pellets[i] != pellets[j]
  {
    var free := grid.GetCellCoords(Empty);
    var count := PelletCount(n);
    pellets := [];
    var pool := free;
    while |pellets| < count && |pool| > 0
      invariant |pellets| + |pool| == |free| && |pellets| <= count
      invariant forall c :: c in pellets ==> c in free
      invariant forall c :: c in pool ==> c in free
      invariant forall i, j :: 0 <= i < j < |pellets| ==> pellets[i] != pellets[j]
      invariant forall i, j :: 0 <= i < j < |pool| ==> pool[i] != pool[j]
      invariant forall c :: c in pellets ==> c !in pool
      decreases |pool|
    {
      var k :| 0 <= k < |pool|;
      assert pool[k] !in pellets;
      pellets := pellets + [pool[k]];
      pool := pool[..k] + pool[k + 1..];
    }
  }
}
