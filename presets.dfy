/** The catalogue of crystal structures: fractional bases built from the
    corner, body-centre and face-centre helpers, and ten named presets with
    their lattice parameters. Everything here is constant data. */
module Presets {
  import opened Vectors

  /** One atom of a basis: a fractional position and a kind tag. */
  datatype BasisAtom = BasisAtom(pos: Vec3, kind: string)

  /** Edge lengths and inter-axial angles (degrees) of a unit cell. */
  datatype Lattice = Lattice(a: real, b: real, c: real, alpha: real, beta: real, gamma: real)

  datatype Preset = Preset(name: string, lattice: Lattice, basis: seq<BasisAtom>, atomRadius: real)

  /** The keys of the catalogue, in the order the table declares them. */
  datatype Structure =
    | Sc | Tetragonal | Orthorhombic | Rhombohedral | Monoclinic | Triclinic
    | Hexagonal | Bcc | Fcc | Hcp

  const AtomRadius: real := 0.25

  /** The structures in the order the table declares them. */
  const AllStructures: seq<Structure> :=
    [Sc, Tetragonal, Orthorhombic, Rhombohedral, Monoclinic, Triclinic, Hexagonal, Bcc, Fcc, Hcp]

  /** A vertex of the unit cube {0,1}^3. */
  predicate IsCubeVertex(p: Vec3) {
    p.x in {0.0, 1.0} && p.y in {0.0, 1.0} && p.z in {0.0, 1.0}
  }

  /** The centre of a face of the unit cube: one coordinate is 0 or 1 and
      the other two are one half. */
  predicate IsFaceCentre(p: Vec3) {
    || (p.x in {0.0, 1.0} && p.y == 0.5 && p.z == 0.5)
    || (p.x == 0.5 && p.y in {0.0, 1.0} && p.z == 0.5)
    || (p.x == 0.5 && p.y == 0.5 && p.z in {0.0, 1.0})
  }

  predicate DistinctPositions(atoms: seq<BasisAtom>) {
    forall i, j :: 0 <= i < j < |atoms| ==> atoms[i].pos != atoms[j].pos
  }

  predicate AllOfKind(atoms: seq<BasisAtom>, kind: string) {
    forall i :: 0 <= i < |atoms| ==> atoms[i].kind == kind
  }

  /** The eight corners of the cell, each once, all of the given kind. */
  function Corners(kind: string := "A"): (r: seq<BasisAtom>)
    ensures |r| == 8 && AllOfKind(r, kind) && DistinctPositions(r)
    ensures forall i :: 0 <= i < |r| ==> IsCubeVertex(r[i].pos)
  {
    [ BasisAtom(Vec3(0.0, 0.0, 0.0), kind), BasisAtom(Vec3(1.0, 0.0, 0.0), kind),
      BasisAtom(Vec3(0.0, 1.0, 0.0), kind), BasisAtom(Vec3(0.0, 0.0, 1.0), kind),
      BasisAtom(Vec3(1.0, 1.0, 0.0), kind), BasisAtom(Vec3(1.0, 0.0, 1.0), kind),
      BasisAtom(Vec3(0.0, 1.0, 1.0), kind), BasisAtom(Vec3(1.0, 1.0, 1.0), kind) ]
  }

  /** The single atom at the centre of the cell. */
  function BodyCenter(kind: string := "B"): (r: seq<BasisAtom>)
    ensures |r| == 1 && AllOfKind(r, kind)
    ensures r[0].pos.x == r[0].pos.y == r[0].pos.z && 2.0 * r[0].pos.x == 1.0
  {
    [BasisAtom(Vec3(0.5, 0.5, 0.5), kind)]
  }

  /** The six face centres, each once, all of the given kind. */
  function FaceCenters(kind: string := "B"): (r: seq<BasisAtom>)
    ensures |r| == 6 && AllOfKind(r, kind) && DistinctPositions(r)
    ensures forall i :: 0 <= i < |r| ==> IsFaceCentre(r[i].pos)
  {
    [ BasisAtom(Vec3(0.5, 0.5, 0.0), kind), BasisAtom(Vec3(0.5, 0.0, 0.5), kind),
      BasisAtom(Vec3(0.0, 0.5, 0.5), kind), BasisAtom(Vec3(1.0, 0.5, 0.5), kind),
      BasisAtom(Vec3(0.5, 1.0, 0.5), kind), BasisAtom(Vec3(0.5, 0.5, 1.0), kind) ]
  }

  /** Every vertex of the unit cube is the position of one of the corners. */
  lemma CornersCoverCube(kind: string, p: Vec3)
    requires IsCubeVertex(p)
    ensures exists i :: 0 <= i < 8 && Corners(kind)[i].pos == p
  {
    var r := Corners(kind);
    if p == r[0].pos {
    } else if p == r[1].pos {
    } else if p == r[2].pos {
    } else if p == r[3].pos {
    } else if p == r[4].pos {
    } else if p == r[5].pos {
    } else if p == r[6].pos {
    } else {
      assert p == r[7].pos;
    }
  }

  /** Every face centre of the unit cube is the position of one of the face
      centre atoms, so the six atoms cover all six faces. */
  lemma FaceCentersCoverFaces(kind: string, p: Vec3)
    requires IsFaceCentre(p)
    ensures exists i :: 0 <= i < 6 && FaceCenters(kind)[i].pos == p
  {
    var r := FaceCenters(kind);
    if p == r[0].pos {
    } else if p == r[1].pos {
    } else if p == r[2].pos {
    } else if p == r[3].pos {
    } else if p == r[4].pos {
    } else {
      assert p == r[5].pos;
    }
  }

  /** The two interior sites of hexagonal close packing. */
  function HcpInterior(): (r: seq<BasisAtom>) {
    [ BasisAtom(Vec3(1.0 / 3.0, 2.0 / 3.0, 0.5), "B"),
      BasisAtom(Vec3(2.0 / 3.0, 1.0 / 3.0, 0.5), "B") ]
  }

  /** The catalogue's key for each structure. */
  function Key(s: Structure): string {
    match s
    case Sc => "sc"
    case Tetragonal => "tetragonal"
    case Orthorhombic => "orthorhombic"
    case Rhombohedral => "rhombohedral"
    case Monoclinic => "monoclinic"
    case Triclinic => "triclinic"
    case Hexagonal => "hexagonal"
    case Bcc => "bcc"
    case Fcc => "fcc"
    case Hcp => "hcp"
  }

  /** The table entry of each structure. Every entry has a well-formed
      lattice and the shared atom radius; only the two hexagonal entries use
      the hexagonal angles; the seven entries without interior sites use the
      plain 'A' corner basis. */
  function PresetOf(s: Structure): (p: Preset)
    ensures WellFormed(p.lattice) && p.atomRadius == 0.25
    ensures HexagonalAngles(p.lattice) <==> s == Hexagonal || s == Hcp
    ensures s != Bcc && s != Fcc && s != Hcp ==> p.basis == Corners("A")
  {
    match s
    case Sc =>
      Preset("Simple Cubic", Lattice(3.0, 3.0, 3.0, 90.0, 90.0, 90.0), Corners("A"), AtomRadius)
    case Tetragonal =>
      Preset("Tetragonal", Lattice(3.0, 3.0, 4.0, 90.0, 90.0, 90.0), Corners("A"), AtomRadius)
    case Orthorhombic =>
      Preset("Orthorhombic", Lattice(3.0, 4.0, 5.0, 90.0, 90.0, 90.0), Corners("A"), AtomRadius)
    case Rhombohedral =>
      Preset("Rhombohedral", Lattice(3.0, 3.0, 3.0, 80.0, 80.0, 80.0), Corners("A"), AtomRadius)
    case Monoclinic =>
      Preset("Monoclinic", Lattice(3.0, 4.0, 5.0, 90.0, 110.0, 90.0), Corners("A"), AtomRadius)
    case Triclinic =>
      Preset("Triclinic", Lattice(3.0, 4.0, 5.0, 70.0, 80.0, 90.0), Corners("A"), AtomRadius)
    case Hexagonal =>
      Preset("Hexagonal", Lattice(3.0, 3.0, 5.0, 90.0, 90.0, 120.0), Corners("A"), AtomRadius)
    case Bcc =>
      Preset("Body-Centered Cubic", Lattice(3.5, 3.5, 3.5, 90.0, 90.0, 90.0),
             Corners("A") + BodyCenter("B"), AtomRadius)
    case Fcc =>
      Preset("Face-Centered Cubic", Lattice(4.0, 4.0, 4.0, 90.0, 90.0, 90.0),
             Corners("A") + FaceCenters("B"), AtomRadius)
    case Hcp =>
      Preset("Hexagonal Close-Packed", Lattice(3.0, 3.0, 4.9, 90.0, 90.0, 120.0),
             Corners("A") + HcpInterior(), AtomRadius)
  }

  /** `presets[key]` for the table's own keys: the structure stored under a
      key, or nothing for any string that is not one of the ten keys. */
  function Lookup(key: string): (r: Option<Structure>)
    ensures r.Some? ==> Key(r.value) == key
    ensures r.None? ==> forall s :: Key(s) != key
  {
    if key == "sc" then Some(Sc)
    else if key == "tetragonal" then Some(Tetragonal)
    else if key == "orthorhombic" then Some(Orthorhombic)
    else if key == "rhombohedral" then Some(Rhombohedral)
    else if key == "monoclinic" then Some(Monoclinic)
    else if key == "triclinic" then Some(Triclinic)
    else if key == "hexagonal" then Some(Hexagonal)
    else if key == "bcc" then Some(Bcc)
    else if key == "fcc" then Some(Fcc)
    else if key == "hcp" then Some(Hcp)
    else None
  }

  datatype Option<T> = None | Some(value: T)

  /** Positive edge lengths and angles strictly between 0 and 180 degrees. */
  predicate WellFormed(l: Lattice) {
    l.a > 0.0 && l.b > 0.0 && l.c > 0.0
    && 0.0 < l.alpha < 180.0 && 0.0 < l.beta < 180.0 && 0.0 < l.gamma < 180.0
  }

  /** The angle triple of the hexagonal convention. */
  predicate HexagonalAngles(l: Lattice) {
    l.alpha == 90.0 && l.beta == 90.0 && l.gamma == 120.0
  }

  /** Body-centred cubic: the eight 'A' corners, then one 'B' atom at the centre. */
  lemma BccBasis()
    ensures var basis := PresetOf(Bcc).basis;
      |basis| == 9 && basis[..8] == Corners("A")
      && basis[8] == BasisAtom(Vec3(0.5, 0.5, 0.5), "B")
  {
  }

  /** Face-centred cubic: the eight 'A' corners, then the six 'B' face centres. */
  lemma FccBasis()
    ensures var basis := PresetOf(Fcc).basis;
      |basis| == 14 && basis[..8] == Corners("A") && basis[8..] == FaceCenters("B")
      && AllOfKind(basis[8..], "B")
      && forall i :: 8 <= i < 14 ==> IsFaceCentre(basis[i].pos)
  {
  }

  /** Hexagonal close packing: the eight 'A' corners, then 'B' atoms at
      (1/3, 2/3, 1/2) and (2/3, 1/3, 1/2). */
  lemma HcpBasis()
    ensures var basis := PresetOf(Hcp).basis;
      |basis| == 10 && basis[..8] == Corners("A")
      && basis[8] == BasisAtom(Vec3(1.0 / 3.0, 2.0 / 3.0, 0.5), "B")
      && basis[9] == BasisAtom(Vec3(2.0 / 3.0, 1.0 / 3.0, 0.5), "B")
  {
  }

  /** Looking up a structure's own key finds that structure, so the ten keys
      are distinct; `AllStructures` names every structure. */
  lemma LookupKey(s: Structure)
    ensures Lookup(Key(s)) == Some(s)
    ensures s in AllStructures
  {
  }
}
