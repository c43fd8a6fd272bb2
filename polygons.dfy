// The fixed primitive meshes: a plane of two triangles and a unit cube of
// twelve, both unindexed and built by filling a new mesh's buffers.
module Polygons {
  import opened Base
  import opened MeshTypes
  import opened Meshes

  /** `vec3::up`. */
  const Up: Vec3 := Vec3(0.0, 1.0, 0.0)

  /**
   * The six corners `create` writes for the plane from `from` to `to`: the
   * triangles (from, near, far) and (near, to, far) over the diagonal between
   * the corner at `from.x, to.z` and the corner at `to.x, from.z`.
   */
  function PlaneVertices(from: Vec3, to: Vec3): (r: seq<Vec3>)
    ensures |r| == 6
  {
    [Vec3(from.x, from.y, from.z), Vec3(from.x, from.y, to.z), Vec3(to.x, to.y, from.z),
     Vec3(from.x, from.y, to.z), Vec3(to.x, to.y, to.z), Vec3(to.x, to.y, from.z)]
  }

  /** The plane's UVs, corner by corner: the unit square split the same way. */
  const PlaneUVs: seq<Vec2> := [Vec2(0.0, 0.0), Vec2(0.0, 1.0), Vec2(1.0, 0.0), Vec2(0.0, 1.0), Vec2(1.0, 1.0), Vec2(1.0, 0.0)]

  /** The corners `PlaneMesh(w, h)` passes to `create`: centred on the origin in the y = 0 plane. */
  function SizedPlaneFrom(w: int, h: int): Vec3 { Vec3(-(w as real) * 0.5, 0.0, -(h as real) * 0.5) }
  function SizedPlaneTo(w: int, h: int): Vec3 { Vec3((w as real) * 0.5, 0.0, (h as real) * 0.5) }

  /** The corners `PlaneMesh(vec2, vec2)` passes on: the 2D points lifted to y = 0, their y becoming z. */
  function Lifted(p: Vec2): Vec3 { Vec3(p.x, 0.0, p.y) }

  /**
   * The buffers `calcTangentBasis` leaves on a mesh with texcoords: new
   * tangent and bitangent buffers, one entry per vertex, and the flag set.
   * The vectors themselves are float geometry and are not modelled.
   */
  method AttachTangentBasis(mesh: Mesh)
    requires mesh.Valid() && mesh.hasTexcoord && mesh.uvCount > 0
    modifies mesh
    ensures mesh.Valid() && mesh.hasTangentSpaceBasis && fresh(mesh.tangents) && fresh(mesh.bitangents)
    ensures mesh.vertexCount == old(mesh.vertexCount) && mesh.uvCount == old(mesh.uvCount)
    ensures mesh.indexCount == old(mesh.indexCount) && mesh.hasNormal == old(mesh.hasNormal)
    ensures mesh.hasTexcoord && mesh.hasColor == old(mesh.hasColor) && mesh.hasBoundingBox == old(mesh.hasBoundingBox)
    ensures mesh.vertices == old(mesh.vertices) && mesh.normals == old(mesh.normals) && mesh.texcoords == old(mesh.texcoords)
  {
    mesh.tangents := new Vec3[mesh.vertexCount];
    mesh.bitangents := new Vec3[mesh.vertexCount];
    mesh.hasTangentSpaceBasis := true;
  }

  /**
   * `PlaneMesh::create` on a new mesh: six vertices (two triangles, one UV
   * set, no indexes) with normals and texcoords, every normal up, then the
   * tangent basis and the bounding box.
   */
  method NewPlane(from: Vec3, to: Vec3) returns (m: Mesh)
    ensures fresh(m) && m.Valid()
    ensures m.vertexCount == 6 && m.uvCount == 1 && m.indexCount == 0
    ensures m.hasNormal && m.hasTexcoord && m.hasTangentSpaceBasis && !m.hasColor
    ensures m.vertices[..] == PlaneVertices(from, to)
    ensures m.normals[..] == seq(6, _ => Up)
    ensures m.texcoords[..] == PlaneUVs
    ensures m.hasBoundingBox && TightBox(m.bbox, PlaneVertices(from, to))
  {
    m := new Mesh();
    m.hasNormal, m.hasTexcoord := true, true;
    m.Init(6, 1, 0);
    FillPlane(m.vertices, m.normals, m.texcoords, from, to);
    AttachTangentBasis(m);
    var b := m.CalcBoundingBox();
  }

  /** The element writes of `create` into the three buffers `init` allocated. */
  method FillPlane(vertices: array<Vec3>, normals: array<Vec3>, texcoords: array<Vec2>, from: Vec3, to: Vec3)
    requires vertices.Length == 6 && normals.Length == 6 && texcoords.Length == 6 && vertices != normals
    modifies vertices, normals, texcoords
    ensures vertices[..] == PlaneVertices(from, to) && normals[..] == seq(6, _ => Up) && texcoords[..] == PlaneUVs
  {
    vertices[0] := Vec3(from.x, from.y, from.z);
    vertices[1] := Vec3(from.x, from.y, to.z);
    vertices[2] := Vec3(to.x, to.y, from.z);
    vertices[3] := Vec3(from.x, from.y, to.z);
    vertices[4] := Vec3(to.x, to.y, to.z);
    vertices[5] := Vec3(to.x, to.y, from.z);
    for i := 0 to 6
      invariant forall k :: 0 <= k < i ==> normals[k] == Up
      invariant vertices[..] == PlaneVertices(from, to)
    {
      normals[i] := Up;
    }
    texcoords[0] := Vec2(0.0, 0.0);
    texcoords[1] := Vec2(0.0, 1.0);
    texcoords[2] := Vec2(1.0, 0.0);
    texcoords[3] := Vec2(0.0, 1.0);
    texcoords[4] := Vec2(1.0, 1.0);
    texcoords[5] := Vec2(1.0, 0.0);
  }

  /** `PlaneMesh(w, h)`: the plane spanning `w` along x and `h` along z, centred on the origin. */
  method NewSizedPlane(w: int, h: int) returns (m: Mesh)
    ensures fresh(m) && m.Valid() && m.vertexCount == 6
    ensures m.vertices[..] == PlaneVertices(SizedPlaneFrom(w, h), SizedPlaneTo(w, h))
  {
    m := NewPlane(SizedPlaneFrom(w, h), SizedPlaneTo(w, h));
  }

  /** `PlaneMesh(vec2, vec2)`: the plane between two points of the ground. */
  method NewGroundPlane(from: Vec2, to: Vec2) returns (m: Mesh)
    ensures fresh(m) && m.Valid() && m.vertexCount == 6
    ensures m.vertices[..] == PlaneVertices(Lifted(from), Lifted(to))
  {
    m := NewPlane(Lifted(from), Lifted(to));
  }

  /** The two triangles of a plane share their diagonal, in positions and in UVs. */
  lemma PlaneSharesDiagonal(from: Vec3, to: Vec3)
    ensures var v := PlaneVertices(from, to);
      v[1] == v[3] && v[2] == v[5] && PlaneUVs[1] == PlaneUVs[3] && PlaneUVs[2] == PlaneUVs[5]
  {
  }

  /** A plane of size `w` by `h` lies in y = 0 within `[-w/2, w/2]` along x and `[-h/2, h/2]` along z. */
  lemma SizedPlaneSpans(w: nat, h: nat)
    ensures forall v | v in PlaneVertices(SizedPlaneFrom(w, h), SizedPlaneTo(w, h)) ::
      v.y == 0.0 && -(w as real) / 2.0 <= v.x <= (w as real) / 2.0 && -(h as real) / 2.0 <= v.z <= (h as real) / 2.0
  {
  }

  /** The unit cube's buffer: 36 positions, then 36 normals, then two UV sets of 36 each, as consecutive floats. */
  const CubeBuffer: seq<real> := [
    0.5, -0.5, 0.5, -0.5, -0.5, 0.5, -0.5, -0.5, -0.5, -0.5, 0.5, -0.5,
    -0.5, 0.5, 0.5, 0.5, 0.5, 0.5, 0.5, 0.5, -0.5, 0.5, 0.5, 0.5,
    0.5, -0.5, 0.5, 0.5, 0.5, 0.5, -0.5, 0.5, 0.5, -0.5, -0.5, 0.5,
    -0.5, 0.5, 0.5, -0.5, 0.5, -0.5, -0.5, -0.5, -0.5, 0.5, -0.5, -0.5,
    -0.5, -0.5, -0.5, -0.5, 0.5, -0.5, 0.5, -0.5, -0.5, 0.5, -0.5, 0.5,
    -0.5, -0.5, -0.5, 0.5, 0.5, -0.5, -0.5, 0.5, -0.5, 0.5, 0.5, 0.5,
    0.5, -0.5, -0.5, 0.5, 0.5, -0.5, 0.5, -0.5, 0.5, 0.5, -0.5, 0.5,
    0.5, 0.5, 0.5, -0.5, -0.5, 0.5, -0.5, -0.5, 0.5, -0.5, 0.5, 0.5,
    -0.5, -0.5, -0.5, 0.5, 0.5, -0.5, 0.5, -0.5, -0.5, -0.5, 0.5, -0.5,
    0.0, -1.0, 0.0, 0.0, -1.0, 0.0, 0.0, -1.0, 0.0, 0.0, 1.0, 0.0,
    0.0, 1.0, 0.0, 0.0, 1.0, 0.0, 1.0, 0.0, 0.0, 1.0, 0.0, 0.0,
    1.0, 0.0, 0.0, 0.0, 0.0, 1.0, 0.0, 0.0, 1.0, 0.0, 0.0, 1.0,
    -1.0, 0.0, 0.0, -1.0, 0.0, 0.0, -1.0, 0.0, 0.0, 0.0, 0.0, -1.0,
    0.0, 0.0, -1.0, 0.0, 0.0, -1.0, 0.0, -1.0, 0.0, 0.0, -1.0, 0.0,
    0.0, -1.0, 0.0, 0.0, 1.0, 0.0, 0.0, 1.0, 0.0, 0.0, 1.0, 0.0,
    1.0, 0.0, 0.0, 1.0, 0.0, 0.0, 1.0, 0.0, 0.0, 0.0, 0.0, 1.0,
    0.0, 0.0, 1.0, 0.0, 0.0, 1.0, -1.0, 0.0, 0.0, -1.0, 0.0, 0.0,
    -1.0, 0.0, 0.0, 0.0, 0.0, -1.0, 0.0, 0.0, -1.0, 0.0, 0.0, -1.0,
    1.0, 0.0, 0.0, 0.0, 0.0, 1.0, 0.0, 0.0, 0.0, 1.0, 1.0, 1.0,
    1.0, 0.0, 0.0, 0.0, 0.0, 1.0, 1.0, 0.0, 0.0, 0.0, 0.0, 1.0,
    1.0, 0.0, 0.0, 0.0, 0.0, 1.0, 0.0, 1.0, 1.0, 1.0, 1.0, 0.0,
    1.0, 1.0, 1.0, 0.0, 0.0, 1.0, 1.0, 0.0, 0.0, 0.0, 1.0, 1.0,
    1.0, 1.0, 1.0, 0.0, 0.0, 1.0, 1.0, 1.0, 1.0, 0.0, 0.0, 1.0,
    1.0, 1.0, 1.0, 0.0, 0.0, 1.0, 0.0, 0.0, 0.0, 1.0, 1.0, 0.0,
    0.33333, 0.33333, 0.0, 0.0, 0.0, 0.33333, 0.33333, 0.33333, 0.0, 0.66667, 0.33333, 0.66667,
    0.33333, 0.66667, 0.66667, 1.0, 0.66667, 0.66667, 0.0, 1.0, 0.33333, 0.66667, 0.0, 0.66667,
    1.0, 0.66667, 0.66667, 1.0, 1.0, 1.0, 0.66667, 0.66667, 0.33333, 0.33333, 0.33333, 0.66667,
    0.33333, 0.33333, 0.33333, 0.0, 0.0, 0.0, 0.33333, 0.33333, 0.0, 0.33333, 0.0, 0.66667,
    0.33333, 0.66667, 0.33333, 1.0, 0.66667, 1.0, 0.0, 1.0, 0.33333, 1.0, 0.33333, 0.66667,
    1.0, 0.66667, 0.66667, 0.66667, 0.66667, 1.0, 0.66667, 0.66667, 0.66667, 0.33333, 0.33333, 0.33333
  ]

  /** Where the normals and the UV sets start in the cube's buffer. */
  const CubeNormalsAt: nat := 36 * 3
  const CubeTexcoordsAt: nat := 36 * 3 * 2

  /** `n` vectors read as consecutive float triples from float `at` of `buf`. */
  function Vec3sAt(buf: seq<real>, at: nat, n: nat): (r: seq<Vec3>)
    requires at + 3 * n <= |buf|
    ensures |r| == n
  {
    seq(n, i requires 0 <= i < n => Vec3(buf[at + 3 * i], buf[at + 3 * i + 1], buf[at + 3 * i + 2]))
  }

  /** `n` vectors read as consecutive float pairs from float `at` of `buf`. */
  function Vec2sAt(buf: seq<real>, at: nat, n: nat): (r: seq<Vec2>)
    requires at + 2 * n <= |buf|
    ensures |r| == n
  {
    seq(n, i requires 0 <= i < n => Vec2(buf[at + 2 * i], buf[at + 2 * i + 1]))
  }

  /** The three copies of `CubeMesh` read exactly the whole buffer: positions, normals and both UV sets. */
  lemma CubeBufferExactlyRead()
    ensures |CubeBuffer| == CubeTexcoordsAt + 36 * 2 * 2
  {
  }

  /**
   * `CubeMesh()`: a new mesh with 36 vertices (12 triangles), normals and two
   * UV sets, no indexes and no tangent basis, its buffers copied from the
   * cube's buffer.
   */
  method NewCube() returns (m: Mesh)
    ensures fresh(m) && m.Valid()
    ensures m.vertexCount == 36 && m.uvCount == 2 && m.indexCount == 0
    ensures m.hasNormal && m.hasTexcoord && !m.hasTangentSpaceBasis
    ensures |CubeBuffer| == 360
    ensures m.vertices[..] == Vec3sAt(CubeBuffer, 0, 36) && m.normals[..] == Vec3sAt(CubeBuffer, CubeNormalsAt, 36)
    ensures m.texcoords[..] == Vec2sAt(CubeBuffer, CubeTexcoordsAt, 72)
  {
    m := new Mesh();
    m.hasNormal, m.hasTexcoord, m.hasTangentSpaceBasis := true, true, false;
    m.Init(36, 2, 0);
    CubeBufferExactlyRead();
    var buf := CubeBuffer;
    CopyVec3s(m.vertices, buf, 0);
    CopyVec3s(m.normals, buf, CubeNormalsAt);
    CopyVec2s(m.texcoords, buf, CubeTexcoordsAt);
  }

  /** `memcpy` of `a.Length` vectors from float `at` of `buf`. */
  method CopyVec3s(a: array<Vec3>, buf: seq<real>, at: nat)
    requires at + 3 * a.Length <= |buf|
    modifies a
    ensures a[..] == Vec3sAt(buf, at, a.Length)
  {
    for i := 0 to a.Length
      invariant forall k :: 0 <= k < i ==> a[k] == Vec3(buf[at + 3 * k], buf[at + 3 * k + 1], buf[at + 3 * k + 2])
    {
      a[i] := Vec3(buf[at + 3 * i], buf[at + 3 * i + 1], buf[at + 3 * i + 2]);
    }
  }

  /** `memcpy` of `a.Length` UV pairs from float `at` of `buf`. */
  method CopyVec2s(a: array<Vec2>, buf: seq<real>, at: nat)
    requires at + 2 * a.Length <= |buf|
    modifies a
    ensures a[..] == Vec2sAt(buf, at, a.Length)
  {
    for j := 0 to a.Length
      invariant forall k :: 0 <= k < j ==> a[k] == Vec2(buf[at + 2 * k], buf[at + 2 * k + 1])
    {
      a[j] := Vec2(buf[at + 2 * j], buf[at + 2 * j + 1]);
    }
  }
}
