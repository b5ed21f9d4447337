/** Exact 3-vectors over the reals, standing in for the viewer's mutable
    three.js vectors. Every value here is immutable, so a `clone()` in the
    viewer is simply the value itself. */
module Vectors {

  datatype Vec3 = Vec3(x: real, y: real, z: real)

  /** The three lattice vectors a structure is drawn from. */
  datatype LatticeVectors = LatticeVectors(v1: Vec3, v2: Vec3, v3: Vec3)

  const Zero := Vec3(0.0, 0.0, 0.0)

  function Add(p: Vec3, q: Vec3): Vec3 {
    Vec3(p.x + q.x, p.y + q.y, p.z + q.z)
  }

  function Sub(p: Vec3, q: Vec3): Vec3 {
    Vec3(p.x - q.x, p.y - q.y, p.z - q.z)
  }

  function Neg(p: Vec3): Vec3 {
    Vec3(-p.x, -p.y, -p.z)
  }

  /** `p + s * v`, what `addScaledVector(v, s)` leaves in `p`. */
  function AddScaled(p: Vec3, v: Vec3, s: real): Vec3 {
    Vec3(p.x + s * v.x, p.y + s * v.y, p.z + s * v.z)
  }

  /** The Cartesian image `f.x * v1 + f.y * v2 + f.z * v3` of a fractional
      coordinate `f`; no range restriction on `f`. */
  function Cartesian(vs: LatticeVectors, f: Vec3): Vec3 {
    Vec3(f.x * vs.v1.x + f.y * vs.v2.x + f.z * vs.v3.x,
         f.x * vs.v1.y + f.y * vs.v2.y + f.z * vs.v3.y,
         f.x * vs.v1.z + f.y * vs.v2.z + f.z * vs.v3.z)
  }

  /** The lattice vectors span space: the only combination of them that
      vanishes is the trivial one. */
  ghost predicate Independent(vs: LatticeVectors) {
    forall f: Vec3 {:trigger Cartesian(vs, f)} :: Cartesian(vs, f) == Zero ==> f == Zero
  }

  lemma CartesianSub(vs: LatticeVectors, f: Vec3, g: Vec3)
    ensures Sub(Cartesian(vs, f), Cartesian(vs, g)) == Cartesian(vs, Sub(f, g))
  {
  }

  lemma CartesianNeg(vs: LatticeVectors, f: Vec3)
    ensures Cartesian(vs, Neg(f)) == Neg(Cartesian(vs, f))
  {
  }
}
