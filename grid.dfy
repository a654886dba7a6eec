/** The square world grid (src/resources/grid.rs): a 2-D array of cell types with a neighbourhood search
    and a window extraction. Coordinates are unbounded integers; a coordinate is on the grid when both
    components lie in 0..n-1, where n is the FIRST dimension, which the source uses for both axes. */
module Grids {
  import opened Coords

  datatype CellType = Empty | Impassable | Consumable

  /** Inside the bounds the source checks: both components against the first dimension. */
  predicate OnGrid(data: array2<CellType>, c: Coord) {
    0 <= c.x < data.Length0 && 0 <= c.y < data.Length0
  }

  /** Row-major order of coordinates. */
  predicate Before(a: Coord, b: Coord) {
    a.x < b.x || (a.x == b.x && a.y < b.y)
  }

  predicate Increasing(s: seq<Coord>) {
    forall i, j :: 0 <= i < j < |s| ==> Before(s[i], s[j])
  }

  /** Two increasing runs, the first entirely before the second, make an increasing run. */
  lemma IncreasingAppend(a: seq<Coord>, b: seq<Coord>)
    requires Increasing(a) && Increasing(b)
    requires forall u, v :: u in a && v in b ==> Before(u, v)
    ensures Increasing(a + b)
  {
    forall i, j | 0 <= i < j < |a + b|
      ensures Before((a + b)[i], (a + b)[j])
    {
      if j < |a| {
      } else if i < |a| {
        assert (a + b)[i] in a && (a + b)[j] in b;
      }
    }
  }

  // ---- cells of one type, in row-major order ----

  /** The cells of row `x` from column `y` on that hold `t`. */
  function RowCells(data: array2<CellType>, t: CellType, x: nat, y: nat): seq<Coord>
    reads data
    requires x < data.Length0 && y <= data.Length1
    decreases data.Length1 - y
  {
    if y == data.Length1 then []
    else (if data[x, y] == t then [Coord(x, y)] else []) + RowCells(data, t, x, y + 1)
  }

  /** The cells of rows `x` and up that hold `t`. */
  function CellsFrom(data: array2<CellType>, t: CellType, x: nat): seq<Coord>
    reads data
    requires x <= data.Length0
    decreases data.Length0 - x
  {
    if x == data.Length0 then [] else RowCells(data, t, x, 0) + CellsFrom(data, t, x + 1)
  }

  lemma {:induction false} RowCellsSpec(data: array2<CellType>, t: CellType, x: nat, y: nat)
    requires x < data.Length0 && y <= data.Length1
    ensures var r := RowCells(data, t, x, y);
      && (forall c :: c in r ==> c.x == x && y <= c.y < data.Length1 && data[c.x, c.y] == t)
      && (forall j :: y <= j < data.Length1 && data[x, j] == t ==> Coord(x, j) in r)
      && Increasing(r)
    decreases data.Length1 - y
  {
    if y < data.Length1 {
      var head := if data[x, y] == t then [Coord(x, y)] else [];
      RowCellsSpec(data, t, x, y + 1);
      IncreasingAppend(head, RowCells(data, t, x, y + 1));
    }
  }

  lemma {:induction false} CellsFromSpec(data: array2<CellType>, t: CellType, x: nat)
    requires x <= data.Length0
    ensures var r := CellsFrom(data, t, x);
      && (forall c :: c in r ==> x <= c.x < data.Length0 && 0 <= c.y < data.Length1 && data[c.x, c.y] == t)
      && (forall i, j :: x <= i < data.Length0 && 0 <= j < data.Length1 && data[i, j] == t ==> Coord(i, j) in r)
      && Increasing(r)
    decreases data.Length0 - x
  {
    if x < data.Length0 {
      RowCellsSpec(data, t, x, 0);
      CellsFromSpec(data, t, x + 1);
    }
  }

  // ---- the neighbourhood scan ----

  /** The cell at offset (dx, dy) from `origin` as the search sees it: kept when it is not the origin,
      lies on the grid and holds `t`. */
  function Probe(data: array2<CellType>, origin: Coord, dx: int, dy: int, t: CellType): (r: seq<Coord>)
    reads data
    requires data.Length0 <= data.Length1
  {
    var c := Add(origin, Coord(dx, dy));
    if (dx == 0 && dy == 0) || !OnGrid(data, c) then []
    else if data[c.x, c.y] == t then [c]
    else []
  }

  /** The inner loop up to column offset `dy`: offsets (dx, -r) .. (dx, dy - 1). */
  function ScanLine(data: array2<CellType>, origin: Coord, r: nat, t: CellType, dx: int, dy: int): seq<Coord>
    reads data
    requires data.Length0 <= data.Length1 && -(r as int) <= dy <= r + 1
    decreases dy + r
  {
    if dy == -(r as int) then []
    else ScanLine(data, origin, r, t, dx, dy - 1) + Probe(data, origin, dx, dy - 1, t)
  }

  /** The outer loop up to row offset `dx`: rows -r .. dx - 1, each scanned in full. */
  function Scan(data: array2<CellType>, origin: Coord, r: nat, t: CellType, dx: int): seq<Coord>
    reads data
    requires data.Length0 <= data.Length1 && -(r as int) <= dx <= r + 1
    decreases dx + r
  {
    if dx == -(r as int) then []
    else Scan(data, origin, r, t, dx - 1) + ScanLine(data, origin, r, t, dx - 1, r + 1)
  }

  /** A cell the search keeps: not the origin, on the grid and holding `t`. */
  predicate Wanted(data: array2<CellType>, origin: Coord, t: CellType, c: Coord)
    reads data
    requires data.Length0 <= data.Length1
  {
    c != origin && OnGrid(data, c) && data[c.x, c.y] == t
  }

  /** A cell of the window of radius `r` around `origin`, in the rows before offset `dx`. */
  predicate InWindow(origin: Coord, r: nat, dx: int, c: Coord) {
    origin.x - r <= c.x < origin.x + dx && origin.y - r <= c.y <= origin.y + r
  }

  /** A line keeps exactly the wanted cells of its columns, in increasing order. */
  lemma {:induction false} ScanLineSpec(data: array2<CellType>, origin: Coord, r: nat, t: CellType, dx: int, dy: int)
    requires data.Length0 <= data.Length1 && -(r as int) <= dy <= r + 1
    ensures var s := ScanLine(data, origin, r, t, dx, dy);
      && (forall c :: c in s ==> Wanted(data, origin, t, c) && c.x == origin.x + dx && origin.y - r <= c.y < origin.y + dy)
      && (forall c :: Wanted(data, origin, t, c) && c.x == origin.x + dx && origin.y - r <= c.y < origin.y + dy ==> c in s)
      && Increasing(s)
    decreases dy + r
  {
    if dy > -(r as int) {
      ScanLineSpec(data, origin, r, t, dx, dy - 1);
      var s := ScanLine(data, origin, r, t, dx, dy);
      forall c | Wanted(data, origin, t, c) && c.x == origin.x + dx && origin.y - r <= c.y < origin.y + dy
        ensures c in s
      {
        if c.y == origin.y + dy - 1 {
          assert c == Add(origin, Coord(dx, dy - 1));
        }
      }
    }
  }

  /** Everything the scan keeps is a wanted cell of its window. */
  lemma {:induction false} ScanSound(data: array2<CellType>, origin: Coord, r: nat, t: CellType, dx: int)
    requires data.Length0 <= data.Length1 && -(r as int) <= dx <= r + 1
    ensures forall c :: c in Scan(data, origin, r, t, dx) ==> Wanted(data, origin, t, c) && InWindow(origin, r, dx, c)
    decreases dx + r
  {
    if dx > -(r as int) {
      ScanSound(data, origin, r, t, dx - 1);
      ScanLineSpec(data, origin, r, t, dx - 1, r + 1);
    }
  }

  /** Every wanted cell of the window is kept. */
  lemma {:induction false} ScanComplete(data: array2<CellType>, origin: Coord, r: nat, t: CellType, dx: int)
    requires data.Length0 <= data.Length1 && -(r as int) <= dx <= r + 1
    ensures forall c :: Wanted(data, origin, t, c) && InWindow(origin, r, dx, c) ==> c in Scan(data, origin, r, t, dx)
    decreases dx + r
  {
    if dx > -(r as int) {
      ScanComplete(data, origin, r, t, dx - 1);
      ScanLineSpec(data, origin, r, t, dx - 1, r + 1);
      forall c | Wanted(data, origin, t, c) && InWindow(origin, r, dx, c)
        ensures c in Scan(data, origin, r, t, dx)
      {
        if c.x < origin.x + dx - 1 {
          assert InWindow(origin, r, dx - 1, c);
        }
      }
    }
  }

  /** The scan lists its cells in row-major order, so without repetition. */
  lemma {:induction false} ScanIncreasing(data: array2<CellType>, origin: Coord, r: nat, t: CellType, dx: int)
    requires data.Length0 <= data.Length1 && -(r as int) <= dx <= r + 1
    ensures Increasing(Scan(data, origin, r, t, dx))
    decreases dx + r
  {
    if dx > -(r as int) {
      var prev := Scan(data, origin, r, t, dx - 1);
      var line := ScanLine(data, origin, r, t, dx - 1, r + 1);
      ScanIncreasing(data, origin, r, t, dx - 1);
      ScanLineIncreasing(data, origin, r, t, dx - 1, r + 1);
      ScanBeforeLine(data, origin, r, t, dx);
      IncreasingAppend(prev, line);
    }
  }

  /** Every cell of the earlier rows comes before every cell of the next row. */
  lemma ScanBeforeLine(data: array2<CellType>, origin: Coord, r: nat, t: CellType, dx: int)
    requires data.Length0 <= data.Length1 && -(r as int) < dx <= r + 1
    ensures forall u, v :: u in Scan(data, origin, r, t, dx - 1) && v in ScanLine(data, origin, r, t, dx - 1, r + 1) ==> Before(u, v)
  {
    ScanSound(data, origin, r, t, dx - 1);
    ScanLineSpec(data, origin, r, t, dx - 1, r + 1);
    forall u, v | u in Scan(data, origin, r, t, dx - 1) && v in ScanLine(data, origin, r, t, dx - 1, r + 1)
      ensures Before(u, v)
    {
      assert u.x < origin.x + dx - 1 && v.x == origin.x + dx - 1;
    }
  }

  /** A row of the scan is in order. */
  lemma ScanLineIncreasing(data: array2<CellType>, origin: Coord, r: nat, t: CellType, dx: int, dy: int)
    requires data.Length0 <= data.Length1 && -(r as int) <= dy <= r + 1
    ensures Increasing(ScanLine(data, origin, r, t, dx, dy))
  {
    ScanLineSpec(data, origin, r, t, dx, dy);
  }

  /** The cell the window shows at (i, j): the grid cell at offset (i - r, j - r), or Empty off the grid. */
  function AreaCell(data: array2<CellType>, origin: Coord, r: nat, i: int, j: int): CellType
    reads data
    requires data.Length0 <= data.Length1
  {
    var c := Add(origin, Coord(i - r, j - r));
    if OnGrid(data, c) then data[c.x, c.y] else Empty
  }

  class Grid {
    const data: array2<CellType>

    /** A grid of the given shape, every cell Empty. */
    constructor (rows: nat, cols: nat)
      ensures data.Length0 == rows && data.Length1 == cols
      ensures forall i, j :: 0 <= i < rows && 0 <= j < cols ==> data[i, j] == Empty
      ensures fresh(data)
    {
      data := new CellType[rows, cols]((i, j) => Empty);
    }

    /** The type of one cell: the one type whose cell list holds (x, y). */
    function Get(x: nat, y: nat): (r: CellType)
      reads data
      requires x < data.Length0 && y < data.Length1
      ensures Coord(x, y) in GetCellCoords(r)
      ensures forall t :: Coord(x, y) in GetCellCoords(t) ==> t == r
    {
      data[x, y]
    }

    /** Writes one cell; reading it back gives the new type and every other cell is unchanged. */
    method Set(x: nat, y: nat, t: CellType)
      requires x < data.Length0 && y < data.Length1
      modifies data
      ensures data[x, y] == t
      ensures forall i, j :: 0 <= i < data.Length0 && 0 <= j < data.Length1 && (i != x || j != y) ==>
        data[i, j] == old(data[i, j])
    {
      data[x, y] := t;
    }

    /** The coordinates of the cells holding `t`: exactly those cells, in row-major order and so without
        repetition. */
    function GetCellCoords(t: CellType): (r: seq<Coord>)
      reads data
      ensures forall c :: c in r <==> 0 <= c.x < data.Length0 && 0 <= c.y < data.Length1 && data[c.x, c.y] == t
      ensures Increasing(r)
    {
      CellsFromSpec(data, t, 0);
      CellsFrom(data, t, 0)
    }

    /** The cells within Chebyshev distance `radius` of `origin`, other than the origin, on the grid and
        holding `t`, in the order of the nested scan. The second dimension must be at least the first,
        which the source uses for both bounds checks. */
    method SearchArea(origin: Coord, radius: nat, t: CellType) returns (neighbors: seq<Coord>)
      requires data.Length0 <= data.Length1
      ensures neighbors == Scan(data, origin, radius, t, radius + 1)
    {
      neighbors := [];
      var x := -(radius as int);
      while x < radius + 1
        invariant -(radius as int) <= x <= radius + 1
        invariant neighbors == Scan(data, origin, radius, t, x)
      {
        neighbors := SearchLine(origin, radius, t, x, neighbors);
        x := x + 1;
      }
    }

    /** The inner loop of the search: appends the kept cells at offsets (x, -r) .. (x, r). */
    method SearchLine(origin: Coord, radius: nat, t: CellType, x: int, prefix: seq<Coord>) returns (neighbors: seq<Coord>)
      requires data.Length0 <= data.Length1
      ensures neighbors == prefix + ScanLine(data, origin, radius, t, x, radius + 1)
    {
      var gridSize := data.Length0;
      neighbors := prefix;
      var y := -(radius as int);
      while y < radius + 1
        invariant -(radius as int) <= y <= radius + 1
        invariant neighbors == prefix + ScanLine(data, origin, radius, t, x, y)
      {
        var coord := Add(origin, Coord(x, y));
        if (x == 0 && y == 0) || coord.x < 0 || coord.y < 0 || coord.x >= gridSize || coord.y >= gridSize {
        } else if data[coord.x, coord.y] == t {
          neighbors := neighbors + [coord];
        }
        y := y + 1;
      }
    }

    /** The (2r+1) x (2r+1) window centred on `origin`; cells off the grid read Empty. */
    method GetArea(origin: Coord, radius: nat) returns (res: array2<CellType>)
      requires data.Length0 <= data.Length1
      ensures fresh(res) && res.Length0 == 2 * radius + 1 && res.Length1 == 2 * radius + 1
      ensures forall i, j :: 0 <= i < res.Length0 && 0 <= j < res.Length1 ==> res[i, j] == AreaCell(data, origin, radius, i, j)
    {
      var gridSize := data.Length0;
      var len := radius * 2 + 1;
      res := new CellType[len, len]((i, j) => Empty);
      var x := -(radius as int);
      while x < radius + 1
        invariant -(radius as int) <= x <= radius + 1
        invariant forall i, j :: 0 <= i < len && 0 <= j < len ==>
          res[i, j] == (if i < x + radius then AreaCell(data, origin, radius, i, j) else Empty)
      {
        var y := -(radius as int);
        while y < radius + 1
          invariant -(radius as int) <= y <= radius + 1
          invariant forall i, j :: 0 <= i < len && 0 <= j < len ==>
            res[i, j] == (if i < x + radius || (i == x + radius && j < y + radius) then AreaCell(data, origin, radius, i, j) else Empty)
        {
          var coord := Add(origin, Coord(x, y));
          if coord.x < 0 || coord.y < 0 || coord.x >= gridSize || coord.y >= gridSize {
          } else {
            res[x + radius, y + radius] := data[coord.x, coord.y];
          }
          y := y + 1;
        }
        x := x + 1;
      }
    }
  }

  // ---- the grid tests ----

  /** On an all-Empty grid a probe keeps exactly the on-grid cells other than the origin. */
  lemma ProbeOnEmptyGrid(data: array2<CellType>, origin: Coord, dx: int, dy: int)
    requires data.Length0 <= data.Length1
    requires forall i, j :: 0 <= i < data.Length0 && 0 <= j < data.Length1 ==> data[i, j] == Empty
    ensures |Probe(data, origin, dx, dy, Empty)| == Kept(data, origin, dx, dy)
  {
  }

  /** A radius-1 line is its three probes. */
  lemma ShortLine(data: array2<CellType>, origin: Coord, t: CellType, dx: int)
    requires data.Length0 <= data.Length1
    ensures ScanLine(data, origin, 1, t, dx, 2)
      == Probe(data, origin, dx, -1, t) + Probe(data, origin, dx, 0, t) + Probe(data, origin, dx, 1, t)
  {
    assert ScanLine(data, origin, 1, t, dx, 0) == Probe(data, origin, dx, -1, t);
  }

  /** A radius-1 scan is its three lines. */
  lemma ShortScan(data: array2<CellType>, origin: Coord, t: CellType)
    requires data.Length0 <= data.Length1
    ensures Scan(data, origin, 1, t, 2)
      == ScanLine(data, origin, 1, t, -1, 2) + ScanLine(data, origin, 1, t, 0, 2) + ScanLine(data, origin, 1, t, 1, 2)
  {
    assert Scan(data, origin, 1, t, 0) == ScanLine(data, origin, 1, t, -1, 2);
  }

  /** The number of cells a radius-1 search finds on an all-Empty grid. */
  function CountAround(data: array2<CellType>, origin: Coord): nat
  {
    Kept(data, origin, -1, -1) + Kept(data, origin, -1, 0) + Kept(data, origin, -1, 1)
      + Kept(data, origin, 0, -1) + Kept(data, origin, 0, 1)
      + Kept(data, origin, 1, -1) + Kept(data, origin, 1, 0) + Kept(data, origin, 1, 1)
  }

  function Kept(data: array2<CellType>, origin: Coord, dx: int, dy: int): nat {
    if (dx, dy) != (0, 0) && OnGrid(data, Add(origin, Coord(dx, dy))) then 1 else 0
  }

  lemma ScanOnEmptyGrid(data: array2<CellType>, origin: Coord)
    requires data.Length0 <= data.Length1
    requires forall i, j :: 0 <= i < data.Length0 && 0 <= j < data.Length1 ==> data[i, j] == Empty
    ensures |Scan(data, origin, 1, Empty, 2)| == CountAround(data, origin)
  {
    ShortScan(data, origin, Empty);
    ShortLine(data, origin, Empty, -1);
    ShortLine(data, origin, Empty, 0);
    ShortLine(data, origin, Empty, 1);
    forall dx, dy | -1 <= dx <= 1 && -1 <= dy <= 1
      ensures |Probe(data, origin, dx, dy, Empty)| == Kept(data, origin, dx, dy)
    {
      ProbeOnEmptyGrid(data, origin, dx, dy);
    }
  }

  /** On an all-Empty 100 x 100 grid, the radius-1 search finds 8 cells around an interior origin and 3
      around the corner. */
  lemma SearchAreaOnEmptyGrid(data: array2<CellType>)
    requires data.Length0 == 100 && data.Length1 == 100
    requires forall i, j :: 0 <= i < 100 && 0 <= j < 100 ==> data[i, j] == Empty
    ensures |Scan(data, Coord(10, 10), 1, Empty, 2)| == 8
    ensures |Scan(data, Coord(0, 0), 1, Empty, 2)| == 3
  {
    ScanOnEmptyGrid(data, Coord(10, 10));
    assert CountAround(data, Coord(10, 10)) == 8;
    ScanOnEmptyGrid(data, Coord(0, 0));
    assert Kept(data, Coord(0, 0), -1, -1) == 0 && Kept(data, Coord(0, 0), -1, 0) == 0 && Kept(data, Coord(0, 0), -1, 1) == 0;
    assert Kept(data, Coord(0, 0), 0, -1) == 0 && Kept(data, Coord(0, 0), 1, -1) == 0;
    assert CountAround(data, Coord(0, 0)) == 3;
  }

  method SearchAreaTest() returns (interior: nat, corner: nat)
    ensures interior == 8 && corner == 3
  {
    var grid := new Grid(100, 100);
    SearchAreaOnEmptyGrid(grid.data);
    var a := grid.SearchArea(Coord(10, 10), 1, Empty);
    var b := grid.SearchArea(Coord(0, 0), 1, Empty);
    interior, corner := |a|, |b|;
  }

  /** The window test: two Consumable cells and an Impassable one seen through a radius-5 window. */
  method GetAreaTest() returns (area: array2<CellType>)
    ensures area.Length0 == 11 && area.Length1 == 11
    ensures area[5, 10] == Consumable && area[10, 10] == Consumable
    ensures area[1, 0] == Impassable && area[3, 2] == Empty
  {
    var grid := new Grid(100, 100);
    grid.Set(50, 55, Consumable);
    grid.Set(55, 55, Consumable);
    grid.Set(46, 45, Impassable);
    assert grid.data[50, 55] == Consumable && grid.data[55, 55] == Consumable;
    assert grid.data[46, 45] == Impassable && grid.data[48, 47] == Empty;
    area := grid.GetArea(Coord(50, 50), 5);
  }
}
