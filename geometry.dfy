/** Plane geometry of the drill bit: positions and headings as exact vectors,
    the canvas bounds and the 1.5-unit proximity test used for side-tracks. */
module Geometry {

  /** A 2D vector (a position or a heading), with exact real coordinates. */
  datatype Vec = Vec(x: real, y: real)

  /** Size of the canvas the drill moves on: createCanvas(600, 400). */
  const Width: real := 600.0
  const Height: real := 400.0

  /** Distance below which a resumed drill counts as branching off an old path. */
  const SideTrackThreshold: real := 1.5

  function Add(p: Vec, d: Vec): Vec
  {
    Vec(p.x + d.x, p.y + d.y)
  }

  function Sq(r: real): (s: real)
    ensures s >= 0.0
  {
    r * r
  }

  /** Square of the Euclidean distance between p and q. */
  function SquaredDist(p: Vec, q: Vec): (d2: real)
    ensures d2 >= 0.0
  {
    Sq(p.x - q.x) + Sq(p.y - q.y)
  }

  /** dist(p, q) < 1.5, stated without the square root: both sides are
      non-negative, so comparing squares decides it. */
  predicate Near(p: Vec, q: Vec)
  {
    SquaredDist(p, q) < SideTrackThreshold * SideTrackThreshold
  }

  /** The bit has left the canvas sideways or through the bottom; the top is open. */
  predicate OutOfBounds(p: Vec)
  {
    p.x < 0.0 || p.x > Width || p.y > Height
  }

  /** One step of length |d| < 1.5 never leaves the 1.5-neighbourhood. */
  lemma StepIsNear(p: Vec, d: Vec)
    requires Sq(d.x) + Sq(d.y) < SideTrackThreshold * SideTrackThreshold
    ensures Near(p, Add(p, d)) && Near(Add(p, d), p)
  {
  }
}
