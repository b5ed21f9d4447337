# Crystal viewer geometry, in Dafny

This project models the exact-arithmetic geometry of a browser crystal-lattice
viewer. That geometry has three parts:

- **The preset catalogue** (`Presets`, from `src/viewer/presets.js`). The
  helpers `corners`, `bodyCenter` and `faceCenters` build fractional bases. The
  table of ten structures uses them: simple cubic, tetragonal, orthorhombic,
  rhombohedral, monoclinic, triclinic, hexagonal, body-centred cubic,
  face-centred cubic and hexagonal close-packed. Each entry has lattice
  parameters, a basis and the shared atom radius 0.25.
- **The unit-cell wireframe** (`UnitCell`, from `src/viewer/cell.js`). The
  corners p0..p7 are the sums of the lattice vectors v1, v2 and v3. They go into
  a 24-point list, and a line-segment renderer reads that list as 12 edges.
- **Atom placement** (`Atoms`, from `src/viewer/atoms.js`). `DrawAtoms` maps
  each fractional (u, v, w) to u·v1 + v·v2 + w·v3. Each sphere gets a material
  chosen by its kind, and unknown kinds fall back to the 'A' material.
  `DrawHexagonalAtoms` places the twelve vertex atoms of a hexagonal prism.

Vectors are triples of `real` (`Vectors`). Every constant in the catalogue
(0.5, 1/3, 2/3, 3.5, 4.9) is an exact rational, so each property is stated
exactly. The lattice vectors are inputs. three.js groups, meshes and materials
become sequences of values and a closed set of material tags. The catalogue and
the wireframe are pure functions. Both drawing routines in `atoms.js` loop and
append meshes to a group one at a time. They are therefore methods with loops
that append to a sequence, proved against their contracts by prefix invariants.

The segment-level statements about the wireframe need independent lattice
vectors. If two lattice vectors coincide, two corners coincide too, and then
two segments can coincide. The same statements about corner indices hold
unconditionally.

## Model

| member | source | states |
|---|---|---|
| `Presets.Corners` | src/viewer/presets.js:6-11 | eight atoms, all of the given kind (default 'A'), at pairwise distinct vertices of {0,1}³ |
| `Presets.CornersCoverCube` | src/viewer/presets.js:6-11 | every vertex of {0,1}³ is the position of one of the eight corners, so the corners are exactly the cube's vertices |
| `Presets.BodyCenter` | src/viewer/presets.js:14 | exactly one atom of the given kind (default 'B'), at (½, ½, ½) |
| `Presets.FaceCenters` | src/viewer/presets.js:17-20 | six atoms of the given kind (default 'B') at pairwise distinct positions; in each, one coordinate is 0 or 1 and the other two are ½ |
| `Presets.FaceCentersCoverFaces` | src/viewer/presets.js:17-20 | every face centre of the unit cube is one of the six atoms, so all six faces are covered |
| `Presets.PresetOf` | src/viewer/presets.js:22-86 | every entry has a, b, c > 0, all three angles strictly between 0 and 180, and atom radius 0.25; only hexagonal and hcp have α = β = 90, γ = 120; sc, tetragonal, orthorhombic, rhombohedral, monoclinic, triclinic and hexagonal use only the 'A' corner basis |
| `Presets.BccBasis` | src/viewer/presets.js:65-70 | the bcc basis is the eight 'A' corners followed by one 'B' atom at (½, ½, ½): 9 atoms, order kept |
| `Presets.FccBasis` | src/viewer/presets.js:71-76 | the fcc basis is the eight 'A' corners followed by the six 'B' face centres: 14 atoms, order kept |
| `Presets.HcpBasis` | src/viewer/presets.js:77-86 | the hcp basis is the eight 'A' corners, then 'B' atoms at exactly (⅓, ⅔, ½) and (⅔, ⅓, ½): 10 atoms |
| `Presets.Lookup` | src/viewer/presets.js:22-87 | indexing the table by one of its ten declared keys finds the structure stored under that key, and finds nothing for every string that is not one of the ten declared keys |
| `Presets.LookupKey` | src/viewer/presets.js:22-87 | looking up a structure's own key gives that structure back, so the ten keys are distinct; the key list names every structure |
| `UnitCell.CellCorners` | src/viewer/cell.js:12-19 | eight corners, corner i being the image of its fractional vertex: 0, v1, v2, v3, v1+v2, v1+v3, v2+v3, v1+v2+v3 |
| `UnitCell.Points` | src/viewer/cell.js:21-28 | 24 points; entries 2k and 2k+1 are the two corners of edge k; entries 8–15 (top face) are entries 0–7 (bottom face) moved by v3 |
| `UnitCell.Pairs` | src/viewer/cell.js:30-31 | the line-segment reading of an even-length point list: one segment per consecutive pair, half as many segments as points |
| `UnitCell.UnitCellSegments` | src/viewer/cell.js:21-32 | the wireframe has exactly 12 segments |
| `UnitCell.SegmentCorners` | src/viewer/cell.js:21-31 | segment k joins the corners named by edge k |
| `UnitCell.EveryCornerHasDegreeThree` | src/viewer/cell.js:21-28 | each corner index p0..p7 is an endpoint of exactly three edges |
| `UnitCell.NoDuplicateEdges` | src/viewer/cell.js:21-28 | no edge is a loop, and no edge is listed twice, as (A, B) or as (B, A) |
| `UnitCell.NoDiagonals` | src/viewer/cell.js:21-28 | every edge joins corners that differ in exactly one of the three lattice vectors, so no face or body diagonal is drawn |
| `UnitCell.FourEdgesPerAxis` | src/viewer/cell.js:21-28 | each of v1, v2 and v3 carries exactly four edges |
| `UnitCell.SegmentDirection` | src/viewer/cell.js:12-28 | the endpoints of every drawn segment differ by exactly the lattice vector of its edge, forwards or backwards |
| `UnitCell.CornersDistinct` | src/viewer/cell.js:12-19 | for independent lattice vectors the eight corner points are pairwise distinct |
| `UnitCell.NoDuplicateSegments` | src/viewer/cell.js:21-31 | for independent lattice vectors no drawn segment repeats another, in either direction |
| `UnitCell.CornerIncidence` | src/viewer/cell.js:21-31 | for independent lattice vectors every corner point is an endpoint of exactly three drawn segments |
| `Atoms.MaterialFor` | src/viewer/atoms.js:22 | kind 'B' gets the red material, kind 'C' the green one, and every other kind, 'A' included, the blue 'A' material |
| `Atoms.DrawAtoms` | src/viewer/atoms.js:16-35 | one sphere per basis atom, in basis order; sphere i is centred at u_i·v1 + v_i·v2 + w_i·v3 for any fractional values, with the material of its kind and the given radius |
| `Atoms.DrawHexagonalAtoms` | src/viewer/atoms.js:44-66 | twelve spheres, all with the 'A' material and the given radius, in bottom/top pairs for i = 0..5: both at (a·cos, a·sin) of step i, the bottom at height 0 and the top at height c |
| `Atoms.CornerOrderAgrees` | src/viewer/presets.js:6-11 | the catalogue's corner i is the fractional vertex of the wireframe's corner p_i |
| `Atoms.CornerAtomsOnCellCorners` | src/viewer/atoms.js:24-27 | a corner atom from the catalogue is placed exactly on the wireframe corner of the same index, e.g. (1,1,0) on v1+v2 |
| `Atoms.BodyCenterOnDiagonal` | src/viewer/presets.js:14 | the body-centre atom is placed at the midpoint of the body diagonal from p0 to p7 |
| `Atoms.FccFaceCentresOnCube` | src/viewer/presets.js:71-76 | the fcc preset has a = b = c = 4 and right angles, and with the axis-aligned vectors of that cell the fcc face-centre atoms land at (2,2,0), (2,0,2), (0,2,2), (4,2,2), (2,4,2), (2,2,4) |

## Left out

- `getLatticeVectors` (src/viewer/lattice.js) is left out. It converts degrees to radians, uses floating-point cos, sin and sqrt, snaps values below 1e-15, and has an exact-equality hexagonal shortcut. Lattice vectors are inputs to every operation instead.
- Atoms.DrawHexagonalAtoms: the cosine and sine of i·60° are an opaque input `unitCircle(i)`. The contract ties each atom to those values but does not compute the trigonometry.
- UnitCell.CornersDistinct, UnitCell.NoDuplicateSegments and UnitCell.CornerIncidence assume independent lattice vectors. With degenerate vectors, corners coincide and these point-level facts fail. The index-level lemmas (EveryCornerHasDegreeThree, NoDuplicateEdges, NoDiagonals) hold without this assumption.
- The viewer's code has no hexagonal-prism wireframe builder and no bounding-box or camera-fitting routine. `main.js` draws only a placeholder cube, so neither is modelled.
- Scene, camera, renderer, orbit controls, the animation loop and resize/reset listeners (src/main.js) are rendering glue with no geometry of their own. The same holds for the axis lines and their labels (src/viewer/axes.js) and for the dropdown panel (src/ui/panel.js).
- three.js specifics are not modelled: sphere segment counts, material colours and roughness, the line material, and the identity of group and mesh objects. A sphere is a centre, a radius and a material tag, and a group is a sequence.
- Vectors are immutable values, so the `clone()` calls in `drawUnitCell` and the in-place `addScaledVector` updates of `drawAtoms` carry no aliasing. The loop in `DrawAtoms` does keep the three successive updates of one position.
- Presets.Lookup looks up the table's own keys only. JavaScript indexing of the object literal would also return inherited prototype members for names such as "toString", "constructor" or "__proto__". The only caller (src/ui/panel.js:11-14) passes keys taken from a `for…in` over the table, which are always own keys.
- Atoms.MaterialFor treats the material table as a plain three-entry map. JavaScript indexing would also find inherited object properties for kinds such as "toString". No preset uses such a kind.
- Floating-point rounding is not modelled. Coordinates are exact reals, and 1/3 and 2/3 are exact rationals.
