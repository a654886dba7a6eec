/** The actions a neural system can choose (src/components/action.rs). */
module Actions {
  import opened Dirs

  datatype Action = Halt | MoveContinue | MoveRandom | MoveReverse | Rotate | RotateCounter

  const N_ACTIONS: nat := 6

  function Index(a: Action): (i: nat)
    ensures i < N_ACTIONS
  {
    match a
    case Halt => 0
    case MoveContinue => 1
    case MoveRandom => 2
    case MoveReverse => 3
    case Rotate => 4
    case RotateCounter => 5
  }

  /** Index-to-action decoding; indices from `N_ACTIONS` on panic. */
  function Get(index: nat): (a: Action)
    requires index < N_ACTIONS
    ensures Index(a) == index
  {
    match index
    case 0 => Halt
    case 1 => MoveContinue
    case 2 => MoveRandom
    case 3 => MoveReverse
    case 4 => Rotate
    case 5 => RotateCounter
  }

  /** `N_ACTIONS` is the number of actions: every action is decoded from an index below it. */
  lemma GetOnto(a: Action)
    ensures Get(Index(a)) == a
  {
  }

  /** The heading after an action; `random` is the direction drawn for `MoveRandom`.
      `Halt` has no heading and panics, so it is excluded. */
  function GetDir(a: Action, curr: Dir, random: Dir): (d: Dir)
    requires a != Halt
    ensures a == MoveContinue ==> d == curr
    ensures a == MoveRandom ==> d == random
    ensures a == MoveReverse ==> d == Dirs.Neg(curr)
    ensures a == Action.Rotate ==> d == Dirs.Rotate(curr)
    ensures a == Action.RotateCounter ==> d == Dirs.RotateCounter(curr)
  {
    match a
    case MoveContinue => curr
    case MoveRandom => random
    case MoveReverse => Dirs.Neg(curr)
    case Rotate => Dirs.Rotate(curr)
    case RotateCounter => Dirs.RotateCounter(curr)
  }

  /** Reversing twice, or rotating one way and then the other, restores the heading. */
  lemma GetDirUndo(d: Dir, random: Dir)
    ensures GetDir(MoveReverse, GetDir(MoveReverse, d, random), random) == d
    ensures GetDir(Action.RotateCounter, GetDir(Action.Rotate, d, random), random) == d
  {
    NegInvolution(d);
    RotateInverse(d);
  }
}
