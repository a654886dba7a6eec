/** The older world grid (src/grid.rs): construction and the neighbourhood search, which scans the
    window exactly as the newer grid does, so it is specified by the same scan. */
module LegacyGrids {
  import opened Coords
  import Grids

  class Grid {
    const data: array2<Grids.CellType>

    /** A grid of the given shape, every cell Empty. */
    constructor Init(rows: nat, cols: nat)
      ensures data.Length0 == rows && data.Length1 == cols
      ensures forall i, j :: 0 <= i < rows && 0 <= j < cols ==> data[i, j] == Grids.Empty
      ensures fresh(data)
    {
      data := new Grids.CellType[rows, cols]((i, j) => Grids.Empty);
    }

    /** The cells within Chebyshev distance `radius` of `origin`, other than the origin, on the grid and
        holding `t`, in the order of the nested scan; the bounds use the first dimension for both axes. */
    method GetCoords(origin: Coord, radius: nat, t: Grids.CellType) returns (neighbors: seq<Coord>)
      requires data.Length0 <= data.Length1
      ensures neighbors == Grids.Scan(data, origin, radius, t, radius + 1)
    {
      neighbors := [];
      var x := -(radius as int);
      while x < radius + 1
        invariant -(radius as int) <= x <= radius + 1
        invariant neighbors == Grids.Scan(data, origin, radius, t, x)
      {
        neighbors := CoordsLine(origin, radius, t, x, neighbors);
        x := x + 1;
      }
    }

    /** The inner loop of the search: appends the kept cells at offsets (x, -r) .. (x, r). */
    method CoordsLine(origin: Coord, radius: nat, t: Grids.CellType, x: int, prefix: seq<Coord>) returns (neighbors: seq<Coord>)
      requires data.Length0 <= data.Length1
      ensures neighbors == prefix + Grids.ScanLine(data, origin, radius, t, x, radius + 1)
    {
      var gridSize := data.Length0;
      neighbors := prefix;
      var y := -(radius as int);
      while y < radius + 1
        invariant -(radius as int) <= y <= radius + 1
        invariant neighbors == prefix + Grids.ScanLine(data, origin, radius, t, x, y)
      {
        var neighbor := Add(origin, Coord(x, y));
        if (x == 0 && y == 0) || neighbor.x < 0 || neighbor.y < 0 || neighbor.x >= gridSize || neighbor.y >= gridSize {
        } else if data[neighbor.x, neighbor.y] == t {
          neighbors := neighbors + [neighbor];
        }
        y := y + 1;
      }
    }
  }

  /** The free-cell test: 8 Empty neighbours around (10, 10) and 3 around (0, 0) on a 100 x 100 grid. */
  method FreeCoordsTest() returns (interior: nat, corner: nat)
    ensures interior == 8 && corner == 3
  {
    var grid := new Grid.Init(100, 100);
    Grids.SearchAreaOnEmptyGrid(grid.data);
    var a := grid.GetCoords(Coord(10, 10), 1, Grids.Empty);
    var b := grid.GetCoords(Coord(0, 0), 1, Grids.Empty);
    interior, corner := |a|, |b|;
  }
}
