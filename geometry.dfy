/** Points and axis-aligned boxes in the world units of the scene (one track tile is 4 units long). */
module Geometry {

  datatype Vec3 = Vec3(x: real, y: real, z: real)

  function Add(a: Vec3, b: Vec3): Vec3
  {
    Vec3(a.x + b.x, a.y + b.y, a.z + b.z)
  }

  /** The closed interval [lo, hi] along one axis. */
  datatype Interval = Interval(lo: real, hi: real)

  predicate Within(inner: Interval, outer: Interval)
  {
    outer.lo <= inner.lo && inner.hi <= outer.hi
  }

  /** A mesh of the shared 1x1x1 box geometry, centred at `position` and stretched by `scale`. */
  datatype Box = Box(position: Vec3, scale: Vec3)

  function XSpan(b: Box): Interval
  {
    Interval(b.position.x - b.scale.x / 2.0, b.position.x + b.scale.x / 2.0)
  }

  function YSpan(b: Box): Interval
  {
    Interval(b.position.y - b.scale.y / 2.0, b.position.y + b.scale.y / 2.0)
  }

  function ZSpan(b: Box): Interval
  {
    Interval(b.position.z - b.scale.z / 2.0, b.position.z + b.scale.z / 2.0)
  }

  /** The box moved by `offset`: how a child mesh lands in the world when its group sits at `offset`. */
  function Translate(b: Box, offset: Vec3): Box
  {
    Box(Add(b.position, offset), b.scale)
  }
}
