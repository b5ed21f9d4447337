/** Placing atom spheres: a basis in fractional coordinates is mapped through
    the lattice vectors one atom at a time, and the hexagonal prism gets its
    twelve vertex atoms ring step by ring step. A drawn sphere is its centre,
    its radius and a material tag. */
module Atoms {
  import opened Vectors
  import Presets
  import UnitCell

  /** The sphere materials, one per kind key: blue under 'A' (corners), red
      under 'B' (centres), green under 'C' (other sites). */
  datatype Material = Blue | Red | Green

  /** One drawn atom. */
  datatype Sphere = Sphere(center: Vec3, radius: real, material: Material)

  /** The material of a kind: the entry stored under 'A', 'B' or 'C', and the
      'A' material for every kind the table does not hold. */
  function MaterialFor(kind: string): (m: Material)
    ensures m == Red <==> kind == "B"
    ensures m == Green <==> kind == "C"
    ensures m == Blue <==> kind != "B" && kind != "C"
  {
    if kind == "A" then Blue
    else if kind == "B" then Red
    else if kind == "C" then Green
    else Blue
  }

  /** One sphere per basis atom, in basis order, each at the Cartesian image
      `u * v1 + v * v2 + w * v3` of its fractional coordinate (whatever its
      range), with the material of its kind and the shared radius. */
  method DrawAtoms(vs: LatticeVectors, basis: seq<Presets.BasisAtom>, radius: real := 0.3)
    returns (atoms: seq<Sphere>)
    ensures |atoms| == |basis|
    ensures forall i :: 0 <= i < |basis| ==>
      atoms[i] == Sphere(Cartesian(vs, basis[i].pos), radius, MaterialFor(basis[i].kind))
  {
    atoms := [];
    for i := 0 to |basis|
      invariant |atoms| == i
      invariant forall k :: 0 <= k < i ==>
        atoms[k] == Sphere(Cartesian(vs, basis[k].pos), radius, MaterialFor(basis[k].kind))
    {
      var atom := basis[i];
      var u, v, w := atom.pos.x, atom.pos.y, atom.pos.z;
      var material := MaterialFor(atom.kind);
      var position := Zero;
      position := AddScaled(position, vs.v1, u);
      position := AddScaled(position, vs.v2, v);
      position := AddScaled(position, vs.v3, w);
      atoms := atoms + [Sphere(position, radius, material)];
    }
  }

  /** The twelve vertex atoms of a hexagonal prism of radius `a` and height
      `c`. `unitCircle(i)` is the point (cos, sin) of the angle i * 60 degrees.
      Atoms come in bottom/top pairs: pair i shares its (x, y) on the circle of
      radius a, the bottom one at height 0 and the top one at height c. All
      use the 'A' material. */
  method DrawHexagonalAtoms(a: real, c: real, radius: real, unitCircle: nat -> (real, real))
    returns (atoms: seq<Sphere>)
    ensures |atoms| == 12
    ensures forall k :: 0 <= k < |atoms| ==> atoms[k].radius == radius && atoms[k].material == Blue
    ensures forall i :: 0 <= i < 6 ==>
      var (cos, sin) := unitCircle(i);
      atoms[2 * i].center == Vec3(a * cos, a * sin, 0.0)
      && atoms[2 * i + 1].center == Vec3(a * cos, a * sin, c)
  {
    var material := MaterialFor("A");
    atoms := [];
    for i := 0 to 6
      invariant |atoms| == 2 * i
      invariant forall k :: 0 <= k < |atoms| ==> atoms[k].radius == radius && atoms[k].material == Blue
      invariant forall j :: 0 <= j < i ==>
        var (cos, sin) := unitCircle(j);
        atoms[2 * j].center == Vec3(a * cos, a * sin, 0.0)
        && atoms[2 * j + 1].center == Vec3(a * cos, a * sin, c)
    {
      var (cos, sin) := unitCircle(i);
      var x := a * cos;
      var y := a * sin;
      atoms := atoms + [Sphere(Vec3(x, y, 0.0), radius, material)];
      atoms := atoms + [Sphere(Vec3(x, y, c), radius, material)];
    }
  }

  // ---- How placed atoms sit in the drawn cell -------------------------------

  /** The catalogue's corners and the cell's corners p0..p7 are listed in
      the same order. */
  lemma CornerOrderAgrees(kind: string, i: nat)
    requires i < 8
    ensures Presets.Corners(kind)[i].pos == UnitCell.CornerFraction(i)
  {
  }

  /** A corner atom lands on the cell corner of the same index: (1, 1, 0),
      the fifth corner, lands on v1 + v2. */
  lemma CornerAtomsOnCellCorners(vs: LatticeVectors, kind: string, i: nat)
    requires i < 8
    ensures Cartesian(vs, Presets.Corners(kind)[i].pos) == UnitCell.CellCorners(vs)[i]
  {
    CornerOrderAgrees(kind, i);
  }

  /** The body-centre atom lands halfway along the body diagonal from p0 to p7. */
  lemma BodyCenterOnDiagonal(vs: LatticeVectors, kind: string)
    ensures var p := Cartesian(vs, Presets.BodyCenter(kind)[0].pos);
      Add(p, p) == UnitCell.CellCorners(vs)[7]
  {
  }

  /** The fcc preset has edge 4 and right angles; with the axis-aligned
      lattice vectors of that cell its six face-centre atoms land at
      (2,2,0), (2,0,2), (0,2,2), (4,2,2), (2,4,2) and (2,2,4). */
  lemma FccFaceCentresOnCube()
    ensures Presets.PresetOf(Presets.Fcc).lattice == Presets.Lattice(4.0, 4.0, 4.0, 90.0, 90.0, 90.0)
    ensures var vs := LatticeVectors(Vec3(4.0, 0.0, 0.0), Vec3(0.0, 4.0, 0.0), Vec3(0.0, 0.0, 4.0));
      var basis := Presets.PresetOf(Presets.Fcc).basis;
      [ Cartesian(vs, basis[8].pos), Cartesian(vs, basis[9].pos), Cartesian(vs, basis[10].pos),
        Cartesian(vs, basis[11].pos), Cartesian(vs, basis[12].pos), Cartesian(vs, basis[13].pos) ]
      == [ Vec3(2.0, 2.0, 0.0), Vec3(2.0, 0.0, 2.0), Vec3(0.0, 2.0, 2.0),
           Vec3(4.0, 2.0, 2.0), Vec3(2.0, 4.0, 2.0), Vec3(2.0, 2.0, 4.0) ]
  {
    Presets.FccBasis();
  }
}
