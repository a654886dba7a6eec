/** The older compass directions (src/dir.rs): the same eight values, decoding and negation,
    without rotation. */
module LegacyDirs {
  import opened Coords

  datatype Dir = N | S | E | W | NE | NW | SE | SW

  function Value(d: Dir): (c: Coord)
    ensures -1 <= c.x <= 1 && -1 <= c.y <= 1
    ensures c != Coord(0, 0)
  {
    match d
    case N => Coord(0, 1)
    case S => Coord(0, -1)
    case E => Coord(1, 0)
    case W => Coord(-1, 0)
    case NE => Coord(1, 1)
    case NW => Coord(-1, 1)
    case SE => Coord(1, -1)
    case SW => Coord(-1, -1)
  }

  function Index(d: Dir): (i: nat)
    ensures i < 8
  {
    match d
    case N => 0
    case S => 1
    case E => 2
    case W => 3
    case NE => 4
    case NW => 5
    case SE => 6
    case SW => 7
  }

  /** Index-to-direction decoding; indices from 8 on panic. */
  function Get(index: nat): (d: Dir)
    requires index < 8
    ensures Index(d) == index
  {
    match index
    case 0 => N
    case 1 => S
    case 2 => E
    case 3 => W
    case 4 => NE
    case 5 => NW
    case 6 => SE
    case 7 => SW
  }

  /** A random direction from a draw in 0..8 exclusive; the panic arm is unreachable. */
  function Sample(draw: nat): (d: Dir)
    requires draw < 8
    ensures Index(d) == draw
  {
    Get(draw)
  }

  lemma GetOnto(d: Dir)
    ensures Get(Index(d)) == d
  {
  }

  function Neg(d: Dir): (r: Dir)
    ensures Value(r) == Coord(-Value(d).x, -Value(d).y)
  {
    match d
    case N => S
    case S => N
    case E => W
    case W => E
    case NE => SW
    case SW => NE
    case NW => SE
    case SE => NW
  }

  lemma NegInvolution(d: Dir)
    ensures Neg(Neg(d)) == d
  {
  }
}
