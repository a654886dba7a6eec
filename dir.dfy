/** The eight compass directions an organism faces (src/components/dir.rs). */
module Dirs {
  import opened Coords

  datatype Dir = N | S | E | W | NE | NW | SE | SW

  /** The unit step of a direction; north is +y and east is +x. */
  function Value(d: Dir): (c: Coord)
    ensures -1 <= c.x <= 1 && -1 <= c.y <= 1
    ensures c != Coord(0, 0)
  {
    match d
    case N => Coord(0, 1)
    case S => Coord(0, -1)
    case E => Coord(1, 0)
    case W => Coord(-1, 0)
    case NE => Coord(1, 1)
    case NW => Coord(-1, 1)
    case SE => Coord(1, -1)
    case SW => Coord(-1, -1)
  }

  /** The index `Get` decodes to each direction. */
  function Index(d: Dir): (i: nat)
    ensures i < 8
  {
    match d
    case N => 0
    case S => 1
    case E => 2
    case W => 3
    case NE => 4
    case NW => 5
    case SE => 6
    case SW => 7
  }

  /** Index-to-direction decoding; indices from 8 on panic. */
  function Get(index: nat): (d: Dir)
    requires index < 8
    ensures Index(d) == index
  {
    match index
    case 0 => N
    case 1 => S
    case 2 => E
    case 3 => W
    case 4 => NE
    case 5 => NW
    case 6 => SE
    case 7 => SW
  }

  /** A random direction: the draw lies in 0..8 exclusive, so the panic arm is never taken. */
  function Sample(draw: nat): (d: Dir)
    requires draw < 8
    ensures Index(d) == draw
  {
    Get(draw)
  }

  /** Every direction is decoded from its own index: `Get` is onto, hence a bijection on 0..7. */
  lemma GetOnto(d: Dir)
    ensures Get(Index(d)) == d
  {
  }

  /** -1, 0 or 1, as `x` is negative, zero or positive. */
  function Sign(x: int): int {
    if x < 0 then -1 else if x == 0 then 0 else 1
  }

  /** One eighth of a turn clockwise: the step (x, y) turns by 45 degrees to (x + y, y - x), scaled back
      to a unit step. */
  function Rotate(d: Dir): (r: Dir)
    ensures Value(r) == Coord(Sign(Value(d).x + Value(d).y), Sign(Value(d).y - Value(d).x))
  {
    match d
    case N => NE
    case S => SW
    case E => SE
    case W => NW
    case NE => E
    case NW => N
    case SE => S
    case SW => W
  }

  /** One eighth of a turn counter-clockwise: the step (x, y) turns by 45 degrees to (x - y, x + y),
      scaled back to a unit step. */
  function RotateCounter(d: Dir): (r: Dir)
    ensures Value(r) == Coord(Sign(Value(d).x - Value(d).y), Sign(Value(d).x + Value(d).y))
  {
    match d
    case N => NW
    case S => SE
    case E => NE
    case W => SW
    case NE => N
    case NW => W
    case SE => E
    case SW => S
  }

  /** The opposite direction. */
  function Neg(d: Dir): (r: Dir)
    ensures Value(r) == Coord(-Value(d).x, -Value(d).y)
  {
    match d
    case N => S
    case S => N
    case E => W
    case W => E
    case NE => SW
    case SW => NE
    case NW => SE
    case SE => NW
  }

  /** The two rotations undo each other. */
  lemma RotateInverse(d: Dir)
    ensures Rotate(RotateCounter(d)) == d && RotateCounter(Rotate(d)) == d
  {
  }

  /** A half turn is the opposite direction. */
  lemma RotateFourTimesIsNeg(d: Dir)
    ensures Rotate(Rotate(Rotate(Rotate(d)))) == Neg(d)
  {
  }

  /** A full turn is the identity. */
  lemma RotateEightTimesIsIdentity(d: Dir)
    ensures Rotate(Rotate(Rotate(Rotate(Rotate(Rotate(Rotate(Rotate(d)))))))) == d
  {
    RotateFourTimesIsNeg(d);
    RotateFourTimesIsNeg(Neg(d));
  }

  lemma NegInvolution(d: Dir)
    ensures Neg(Neg(d)) == d
  {
  }

  /** Directions are told apart by their unit steps. */
  lemma ValueInjective(a: Dir, b: Dir)
    ensures Value(a) == Value(b) ==> a == b
  {
  }

  /** The four-slot encoding for the sensors: slot 0 north, 1 south, 2 east, 3 west; a diagonal sets two. */
  function ToArr(d: Dir): (r: seq<real>)
    ensures |r| == 4
    ensures r[0] == (if Value(d).y == 1 then 1.0 else 0.0)
    ensures r[1] == (if Value(d).y == -1 then 1.0 else 0.0)
    ensures r[2] == (if Value(d).x == 1 then 1.0 else 0.0)
    ensures r[3] == (if Value(d).x == -1 then 1.0 else 0.0)
  {
    var res := [0.0, 0.0, 0.0, 0.0];
    match d
    case N => res[0 := 1.0]
    case S => res[1 := 1.0]
    case E => res[2 := 1.0]
    case W => res[3 := 1.0]
    case NE => res[0 := 1.0][2 := 1.0]
    case NW => res[0 := 1.0][3 := 1.0]
    case SE => res[1 := 1.0][2 := 1.0]
    case SW => res[1 := 1.0][3 := 1.0]
  }
}
