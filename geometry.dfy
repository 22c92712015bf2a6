/** Grid positions and the nine discrete directions actors move in
    (the `Position` and `Direction` types of the play state). Coordinates
    are unbounded integers; the 16-bit width of the original is not modelled. */
module Geometry {

  datatype Position = Position(x: int, y: int) {
    /** The position one step away in direction `d`. */
    function MovedTo(d: Direction): Position {
      Position(x + d.dx, y + d.dy)
    }
  }

  datatype Direction = Direction(dx: int, dy: int) {
    /** Only the horizontal component. */
    function Horizontal(): Direction {
      Direction(dx, 0)
    }

    /** Only the vertical component. */
    function Vertical(): Direction {
      Direction(0, dy)
    }

    function FlippedX(): Direction {
      Direction(-dx, dy)
    }

    function FlippedY(): Direction {
      Direction(dx, -dy)
    }

    /** One of the nine legal directions: each component in {-1, 0, 1}. */
    predicate IsStep() {
      -1 <= dx <= 1 && -1 <= dy <= 1
    }

    /** One of the four diagonals. */
    predicate IsDiagonal() {
      (dx == 1 || dx == -1) && (dy == 1 || dy == -1)
    }
  }

  const NORTH := Direction(0, -1)
  const SOUTH := Direction(0, 1)
  const EAST := Direction(1, 0)
  const WEST := Direction(-1, 0)
  const NORTHEAST := Direction(1, -1)
  const SOUTHEAST := Direction(1, 1)
  const NORTHWEST := Direction(-1, -1)
  const SOUTHWEST := Direction(-1, 1)
  const NONE := Direction(0, 0)

  /** The four diagonals a new enemy may start with. */
  const DIAGONALS := [NORTHEAST, NORTHWEST, SOUTHEAST, SOUTHWEST]

  /** A nondeterministic choice among the four diagonals; stands for the
      random pick of the original. */
  method RandomDiagonal() returns (d: Direction)
    ensures d.IsDiagonal()
    ensures d in DIAGONALS
  {
    assert NORTHEAST in DIAGONALS;
    d :| d in DIAGONALS;
  }

  /** Both flips undo themselves and commute with each other. */
  lemma FlipsAreCommutingInvolutions(d: Direction)
    ensures d.FlippedX().FlippedX() == d
    ensures d.FlippedY().FlippedY() == d
    ensures d.FlippedX().FlippedY() == d.FlippedY().FlippedX()
  {
  }

  /** The components of a direction have zero in the other axis, and moving
      by the two components one after the other is moving by the direction. */
  lemma ComponentsSplitDirection(p: Position, d: Direction)
    ensures d.Horizontal().dy == 0 && d.Horizontal().dx == d.dx
    ensures d.Vertical().dx == 0 && d.Vertical().dy == d.dy
    ensures p.MovedTo(d.Horizontal()).MovedTo(d.Vertical()) == p.MovedTo(d)
  {
  }

  /** Moving by NONE is the identity, and moves add componentwise. */
  lemma MovesCompose(p: Position, d: Direction, e: Direction)
    ensures p.MovedTo(NONE) == p
    ensures p.MovedTo(d).MovedTo(e) == p.MovedTo(Direction(d.dx + e.dx, d.dy + e.dy))
    ensures p.MovedTo(d).MovedTo(d.FlippedX().FlippedY()) == p
  {
  }

  /** The nine legal directions are exactly the eight compass constants and
      NONE, and flipping keeps a direction legal (and diagonal). */
  lemma StepsAreTheNineConstants(d: Direction)
    ensures d.IsStep() <==>
      d in [NORTH, SOUTH, EAST, WEST, NORTHEAST, SOUTHEAST, NORTHWEST, SOUTHWEST, NONE]
    ensures d.IsStep() ==> d.FlippedX().IsStep() && d.FlippedY().IsStep()
    ensures d.IsDiagonal() ==> d.FlippedX().IsDiagonal() && d.FlippedY().IsDiagonal()
  {
  }
}
