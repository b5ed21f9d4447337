/** The unit-cell wireframe: the eight corners of the parallelepiped spanned
    by the lattice vectors, and the 24-point list that a line-segment
    renderer reads as 12 edges of consecutive pairs. */
module UnitCell {
  import opened Vectors

  /** One drawn edge. */
  datatype Segment = Segment(start: Vec3, end: Vec3)

  /** Corner i of the cell (the viewer's p0..p7) is the sum of the lattice
      vectors named by its three flags: p1 = v1, p4 = v1 + v2, p7 = v1 + v2 + v3. */
  function Uses(i: nat, axis: nat): bool {
    if axis == 1 then i == 1 || i == 4 || i == 5 || i == 7
    else if axis == 2 then i == 2 || i == 4 || i == 6 || i == 7
    else if axis == 3 then i == 3 || i == 5 || i == 6 || i == 7
    else false
  }

  /** The fractional coordinate of corner i: a vertex of {0,1}^3. */
  function CornerFraction(i: nat): Vec3 {
    Vec3(if Uses(i, 1) then 1.0 else 0.0,
         if Uses(i, 2) then 1.0 else 0.0,
         if Uses(i, 3) then 1.0 else 0.0)
  }

  /** Lattice vector number `axis`. */
  function AxisVector(vs: LatticeVectors, axis: nat): Vec3 {
    if axis == 1 then vs.v1 else if axis == 2 then vs.v2 else vs.v3
  }

  /** The corners p0..p7, each the image of its fractional corner. */
  function CellCorners(vs: LatticeVectors): (p: seq<Vec3>)
    ensures |p| == 8
    ensures forall i :: 0 <= i < 8 ==> p[i] == Cartesian(vs, CornerFraction(i))
  {
    [ Zero, vs.v1, vs.v2, vs.v3,
      Add(vs.v1, vs.v2), Add(vs.v1, vs.v3), Add(vs.v2, vs.v3),
      Add(Add(vs.v1, vs.v2), vs.v3) ]
  }

  /** The twelve edges as pairs of corner indices, in drawing order: the
      bottom face, the top face, then the four connecting edges. */
  const Edges: seq<(nat, nat)> :=
    [ (0, 1), (1, 4), (4, 2), (2, 0),
      (3, 5), (5, 7), (7, 6), (6, 3),
      (0, 3), (1, 5), (2, 6), (4, 7) ]

  /** The 24 points handed to the renderer. Entries 2k and 2k+1 are the
      corners of edge k, and the top face (entries 8 to 15) is the bottom face
      (entries 0 to 7) moved by v3. */
  function Points(vs: LatticeVectors): (pts: seq<Vec3>)
    ensures |pts| == 2 * |Edges| == 24
    ensures forall k :: 0 <= k < |Edges| ==>
      pts[2 * k] == CellCorners(vs)[Edges[k].0] && pts[2 * k + 1] == CellCorners(vs)[Edges[k].1]
    ensures forall j :: 0 <= j < 8 ==> pts[8 + j] == Add(pts[j], vs.v3)
  {
    var p := CellCorners(vs);
    [ p[0], p[1], p[1], p[4], p[4], p[2], p[2], p[0],
      p[3], p[5], p[5], p[7], p[7], p[6], p[6], p[3],
      p[0], p[3], p[1], p[5], p[2], p[6], p[4], p[7] ]
  }

  /** How a line-segment renderer reads a point list: one segment per
      consecutive pair. */
  function Pairs(pts: seq<Vec3>): (segs: seq<Segment>)
    requires |pts| % 2 == 0
    ensures |segs| == |pts| / 2
    ensures forall k :: 0 <= k < |segs| ==> segs[k] == Segment(pts[2 * k], pts[2 * k + 1])
    decreases |pts|
  {
    if pts == [] then [] else [Segment(pts[0], pts[1])] + Pairs(pts[2..])
  }

  /** The wireframe of the cell spanned by `vs`. */
  function UnitCellSegments(vs: LatticeVectors): (segs: seq<Segment>)
    ensures |segs| == 12
  {
    Pairs(Points(vs))
  }

  /** Edge k of the wireframe joins corners Edges[k].0 and Edges[k].1. */
  lemma SegmentCorners(vs: LatticeVectors, k: nat)
    requires k < 12
    ensures UnitCellSegments(vs)[k]
         == Segment(CellCorners(vs)[Edges[k].0], CellCorners(vs)[Edges[k].1])
  {
  }

  // ---- Combinatorics of the edge list --------------------------------------

  /** The number of edges with corner c as an endpoint. */
  function Degree(edges: seq<(nat, nat)>, c: nat): nat {
    if edges == [] then 0
    else (if edges[0].0 == c || edges[0].1 == c then 1 else 0) + Degree(edges[1..], c)
  }

  /** Two corners are joined by a cell edge exactly when they differ in one
      of the three flags: otherwise the pair would be a face or body diagonal. */
  predicate Adjacent(i: nat, j: nat) {
    var d1, d2, d3 := Uses(i, 1) != Uses(j, 1), Uses(i, 2) != Uses(j, 2), Uses(i, 3) != Uses(j, 3);
    (d1 && !d2 && !d3) || (!d1 && d2 && !d3) || (!d1 && !d2 && d3)
  }

  /** The one flag in which the endpoints of an edge differ. */
  function EdgeAxis(e: (nat, nat)): nat {
    if Uses(e.0, 1) != Uses(e.1, 1) then 1 else if Uses(e.0, 2) != Uses(e.1, 2) then 2 else 3
  }

  /** The number of edges running along lattice vector `axis`. */
  function AxisCount(edges: seq<(nat, nat)>, axis: nat): nat {
    if edges == [] then 0
    else (if EdgeAxis(edges[0]) == axis then 1 else 0) + AxisCount(edges[1..], axis)
  }

  lemma DegreeStep(edges: seq<(nat, nat)>, i: nat, c: nat)
    requires i < |edges|
    ensures Degree(edges[i..], c)
         == (if edges[i].0 == c || edges[i].1 == c then 1 else 0) + Degree(edges[i + 1..], c)
  {
    assert edges[i..][1..] == edges[i + 1..];
  }

  lemma AxisCountStep(edges: seq<(nat, nat)>, i: nat, axis: nat)
    requires i < |edges|
    ensures AxisCount(edges[i..], axis)
         == (if EdgeAxis(edges[i]) == axis then 1 else 0) + AxisCount(edges[i + 1..], axis)
  {
    assert edges[i..][1..] == edges[i + 1..];
  }

  /** Every corner is an endpoint of exactly three edges. */
  lemma EveryCornerHasDegreeThree(c: nat)
    requires c < 8
    ensures Degree(Edges, c) == 3
  {
    assert Edges[0..] == Edges;
    assert Edges[12..] == [];
    DegreeStep(Edges, 0, c); DegreeStep(Edges, 1, c); DegreeStep(Edges, 2, c);
    DegreeStep(Edges, 3, c); DegreeStep(Edges, 4, c); DegreeStep(Edges, 5, c);
    DegreeStep(Edges, 6, c); DegreeStep(Edges, 7, c); DegreeStep(Edges, 8, c);
    DegreeStep(Edges, 9, c); DegreeStep(Edges, 10, c); DegreeStep(Edges, 11, c);
  }

  /** No edge is listed twice, in either direction, and none is a loop. */
  lemma NoDuplicateEdges()
    ensures forall k :: 0 <= k < |Edges| ==> Edges[k].0 != Edges[k].1
    ensures forall j, k :: 0 <= j < k < |Edges| ==>
      Edges[j] != Edges[k] && Edges[j] != (Edges[k].1, Edges[k].0)
  {
  }

  /** Every edge joins two adjacent corners: no face or body diagonal is drawn. */
  lemma NoDiagonals()
    ensures forall k :: 0 <= k < |Edges| ==> Edges[k].0 < 8 && Edges[k].1 < 8 && Adjacent(Edges[k].0, Edges[k].1)
  {
  }

  /** Each lattice vector carries exactly four edges. */
  lemma FourEdgesPerAxis()
    ensures forall axis :: 1 <= axis <= 3 ==> AxisCount(Edges, axis) == 4
  {
    forall axis | 1 <= axis <= 3
      ensures AxisCount(Edges, axis) == 4
    {
      assert Edges[0..] == Edges;
      assert Edges[12..] == [];
      AxisCountStep(Edges, 0, axis); AxisCountStep(Edges, 1, axis); AxisCountStep(Edges, 2, axis);
      AxisCountStep(Edges, 3, axis); AxisCountStep(Edges, 4, axis); AxisCountStep(Edges, 5, axis);
      AxisCountStep(Edges, 6, axis); AxisCountStep(Edges, 7, axis); AxisCountStep(Edges, 8, axis);
      AxisCountStep(Edges, 9, axis); AxisCountStep(Edges, 10, axis); AxisCountStep(Edges, 11, axis);
    }
  }

  // ---- Geometry of the drawn segments ----------------------------------------

  /** The fractional unit step along lattice vector `axis`. */
  function Unit(axis: nat): Vec3 {
    if axis == 1 then Vec3(1.0, 0.0, 0.0)
    else if axis == 2 then Vec3(0.0, 1.0, 0.0)
    else Vec3(0.0, 0.0, 1.0)
  }

  /** Between adjacent corners the fractional coordinate moves by one unit
      step, forwards or backwards. */
  lemma AdjacentStep(i: nat, j: nat)
    requires Adjacent(i, j)
    ensures var u := Unit(EdgeAxis((i, j)));
      Sub(CornerFraction(j), CornerFraction(i)) == u || Sub(CornerFraction(j), CornerFraction(i)) == Neg(u)
  {
  }

  lemma CartesianUnit(vs: LatticeVectors, axis: nat)
    ensures Cartesian(vs, Unit(axis)) == AxisVector(vs, axis)
  {
  }

  /** Each drawn segment runs along exactly one lattice vector, forwards or
      backwards; none is a face or body diagonal. */
  lemma SegmentDirection(vs: LatticeVectors, k: nat)
    requires k < 12
    ensures var s := UnitCellSegments(vs)[k];
      var v := AxisVector(vs, EdgeAxis(Edges[k]));
      Sub(s.end, s.start) == v || Sub(s.end, s.start) == Neg(v)
  {
    NoDiagonals();
    SegmentCorners(vs, k);
    var (i, j) := Edges[k];
    var u := Unit(EdgeAxis(Edges[k]));
    CartesianSub(vs, CornerFraction(j), CornerFraction(i));
    AdjacentStep(i, j);
    CartesianUnit(vs, EdgeAxis(Edges[k]));
    CartesianNeg(vs, u);
  }

  lemma FractionsDistinct(i: nat, j: nat)
    requires i < j < 8
    ensures Sub(CornerFraction(i), CornerFraction(j)) != Zero
  {
  }

  /** For independent lattice vectors the eight corners are distinct points. */
  lemma CornersDistinct(vs: LatticeVectors)
    requires Independent(vs)
    ensures forall i, j :: 0 <= i < j < 8 ==> CellCorners(vs)[i] != CellCorners(vs)[j]
  {
    forall i, j | 0 <= i < j < 8
      ensures CellCorners(vs)[i] != CellCorners(vs)[j]
    {
      FractionsDistinct(i, j);
      CartesianSub(vs, CornerFraction(i), CornerFraction(j));
    }
  }

  /** For independent lattice vectors no segment is drawn twice, in either
      direction. */
  lemma NoDuplicateSegments(vs: LatticeVectors)
    requires Independent(vs)
    ensures forall j, k :: 0 <= j < k < 12 ==>
      var sj, sk := UnitCellSegments(vs)[j], UnitCellSegments(vs)[k];
      sj != sk && sj != Segment(sk.end, sk.start)
  {
    CornersDistinct(vs);
    NoDuplicateEdges();
    NoDiagonals();
    forall j, k | 0 <= j < k < 12
      ensures UnitCellSegments(vs)[j] != UnitCellSegments(vs)[k]
      ensures UnitCellSegments(vs)[j] != Segment(UnitCellSegments(vs)[k].end, UnitCellSegments(vs)[k].start)
    {
      SegmentCorners(vs, j);
      SegmentCorners(vs, k);
    }
  }

  /** The number of segments with p as an endpoint. */
  function Incident(segs: seq<Segment>, p: Vec3): nat {
    if segs == [] then 0
    else (if segs[0].start == p || segs[0].end == p then 1 else 0) + Incident(segs[1..], p)
  }

  /** Drawing an index edge list through injective corner positions keeps
      every corner's degree. */
  lemma {:induction false} IncidentIsDegree(segs: seq<Segment>, edges: seq<(nat, nat)>, cs: seq<Vec3>, c: nat)
    requires |segs| == |edges| && c < |cs|
    requires forall k :: 0 <= k < |edges| ==> edges[k].0 < |cs| && edges[k].1 < |cs|
    requires forall k :: 0 <= k < |edges| ==> segs[k] == Segment(cs[edges[k].0], cs[edges[k].1])
    requires forall i, j :: 0 <= i < j < |cs| ==> cs[i] != cs[j]
    ensures Incident(segs, cs[c]) == Degree(edges, c)
  {
    if edges != [] {
      IncidentIsDegree(segs[1..], edges[1..], cs, c);
    }
  }

  /** For independent lattice vectors every corner point is an endpoint of
      exactly three drawn segments. */
  lemma CornerIncidence(vs: LatticeVectors, c: nat)
    requires Independent(vs) && c < 8
    ensures Incident(UnitCellSegments(vs), CellCorners(vs)[c]) == 3
  {
    CornersDistinct(vs);
    NoDiagonals();
    forall k | 0 <= k < 12
      ensures UnitCellSegments(vs)[k] == Segment(CellCorners(vs)[Edges[k].0], CellCorners(vs)[Edges[k].1])
    {
      SegmentCorners(vs, k);
    }
    IncidentIsDegree(UnitCellSegments(vs), Edges, CellCorners(vs), c);
    EveryCornerHasDegreeThree(c);
  }
}
