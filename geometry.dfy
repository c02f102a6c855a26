/**
  Positions on a line. The entity moves in three dimensions, but every
  movement rule of the behaviour core is "go a given length toward a point";
  on a line that is exact in real arithmetic, whereas the Euclidean norm
  would need a square root.
*/
module Geometry {
  type Point = real

  /** The distance between two points (`Vector3.Distance`, `Vector3.Length`). */
  function Dist(a: Point, b: Point): (r: real)
    ensures r >= 0.0
    ensures r == 0.0 <==> a == b
  {
    if a <= b then b - a else a - b
  }

  /** The unit direction from `from` toward `to` (`diff.Normal`); zero when they coincide. */
  function Dir(from: Point, to: Point): real
  {
    if from < to then 1.0 else if to < from then -1.0 else 0.0
  }

  /**
    `from + Dir(from, to) * len`: move `len` toward `to`. Moving no further
    than the target keeps the point between the two and lands on the target
    exactly when `len` is the whole distance.
  */
  function Toward(from: Point, to: Point, len: real): (r: Point)
    ensures 0.0 <= len <= Dist(from, to) ==> Dist(from, r) == len && Dist(r, to) == Dist(from, to) - len
    ensures len == Dist(from, to) ==> r == to
  {
    from + Dir(from, to) * len
  }
}
