/** Immutable 2D vectors and axis-aligned boxes (game.js, `Vector` and the
    bound getters and `isIntersect` of `Actor`). Coordinates are exact reals. */
module Geometry {

  /** A 2D point or displacement. Being a datatype, no operation can mutate it. */
  datatype Vector = Vector(x: real, y: real) {

    /** `plus`: component-wise sum, a new value. */
    function Plus(other: Vector): (r: Vector)
      ensures r.x == x + other.x && r.y == y + other.y
    {
      Vector(x + other.x, y + other.y)
    }

    /** `times`: both components scaled by `k`, a new value. */
    function Times(k: real): (r: Vector)
      ensures r.x == x * k && r.y == y * k
    {
      Vector(x * k, y * k)
    }
  }

  /** `Math.floor` on an exact real. */
  function Floor(x: real): (r: int)
    ensures r as real <= x < r as real + 1.0
  {
    x.Floor
  }

  /** `Math.ceil`, written through floor as `-floor(-x)`. */
  function Ceil(x: real): (r: int)
    ensures x <= r as real < x + 1.0
  {
    -((-x).Floor)
  }

  /** The rectangle an actor occupies: `pos` is its top-left corner, `size` its extent. */
  datatype Box = Box(pos: Vector, size: Vector) {
    function Left(): real { pos.x }
    function Right(): real { pos.x + size.x }
    function Top(): real { pos.y }
    function Bottom(): real { pos.y + size.y }

    /** The geometric part of `isIntersect`: all four strict inequalities. */
    predicate Overlaps(other: Box) {
      Right() > other.Left() && Left() < other.Right() &&
      Bottom() > other.Top() && Top() < other.Bottom()
    }
  }

  /** Strict overlap is symmetric. */
  lemma OverlapsSymmetric(a: Box, b: Box)
    ensures a.Overlaps(b) <==> b.Overlaps(a)
  {
  }

  /** Boxes that only share a vertical or a horizontal edge do not overlap. */
  lemma TouchingEdgesDoNotOverlap(a: Box, b: Box)
    requires a.Right() == b.Left() || b.Right() == a.Left()
          || a.Bottom() == b.Top() || b.Bottom() == a.Top()
    ensures !a.Overlaps(b) && !b.Overlaps(a)
  {
  }
}
