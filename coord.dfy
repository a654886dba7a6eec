/** Grid coordinates with componentwise arithmetic (src/coord.rs), over unbounded integers. */
module Coords {

  datatype Coord = Coord(x: int, y: int)

  function New(x: int, y: int): (c: Coord)
    ensures c.x == x && c.y == y
  {
    Coord(x, y)
  }

  function Add(a: Coord, b: Coord): (c: Coord)
    ensures c.x - a.x == b.x && c.y - a.y == b.y
  {
    Coord(a.x + b.x, a.y + b.y)
  }

  function Sub(a: Coord, b: Coord): (c: Coord)
    ensures Add(c, b) == a
  {
    Coord(a.x - b.x, a.y - b.y)
  }

  /** `a += b`: the source updates the receiver in place; here the updated value is returned. */
  method AddAssign(a: Coord, rhs: Coord) returns (a': Coord)
    ensures a' == Add(a, rhs)
  {
    a' := a;
    a' := a'.(x := a'.x + rhs.x);
    a' := a'.(y := a'.y + rhs.y);
  }

  /** Subtraction undoes addition. */
  lemma AddSubInverse(a: Coord, b: Coord)
    ensures Sub(Add(a, b), b) == a
  {
  }

  lemma AddCommutative(a: Coord, b: Coord)
    ensures Add(a, b) == Add(b, a)
  {
  }

  lemma AddAssociative(a: Coord, b: Coord, c: Coord)
    ensures Add(Add(a, b), c) == Add(a, Add(b, c))
  {
  }
}
