/**
 Three-component vectors over the reals (the model's stand-in for `simd_float3`)
 and reals extended with the two infinities that `Float32` bounds start from.
 */
module Vectors {

  datatype Vec3 = Vec3(x: real, y: real, z: real)

  datatype Axis = X | Y | Z

  const Zero: Vec3 := Vec3(0.0, 0.0, 0.0)

  function Coord(v: Vec3, a: Axis): real
  {
    match a
    case X => v.x
    case Y => v.y
    case Z => v.z
  }

  function Add(u: Vec3, v: Vec3): (w: Vec3)
    ensures forall a: Axis :: Coord(w, a) == Coord(u, a) + Coord(v, a)
  {
    Vec3(u.x + v.x, u.y + v.y, u.z + v.z)
  }

  function Sub(u: Vec3, v: Vec3): (w: Vec3)
    ensures forall a: Axis :: Coord(w, a) == Coord(u, a) - Coord(v, a)
  {
    Vec3(u.x - v.x, u.y - v.y, u.z - v.z)
  }

  function Scale(v: Vec3, k: real): (w: Vec3)
    ensures forall a: Axis :: Coord(w, a) == Coord(v, a) * k
  {
    Vec3(v.x * k, v.y * k, v.z * k)
  }

  /** A real or one of the two infinities, ordered as IEEE floats order them. */
  datatype ExtReal = NegInf | Finite(r: real) | PosInf

  predicate Le(a: ExtReal, b: ExtReal)
  {
    match (a, b)
    case (NegInf, _) => true
    case (_, PosInf) => true
    case (Finite(p), Finite(q)) => p <= q
    case _ => false
  }

  /** `v > e`, for a finite float `v` and a bound `e`. */
  predicate Above(v: real, e: ExtReal)
  {
    match e
    case NegInf => true
    case Finite(q) => v > q
    case PosInf => false
  }

  /** `v < e`, for a finite float `v` and a bound `e`. */
  predicate Below(v: real, e: ExtReal)
  {
    match e
    case NegInf => false
    case Finite(q) => v < q
    case PosInf => true
  }
}
