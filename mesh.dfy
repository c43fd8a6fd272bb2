// The mesh object: flat vertex, normal, texcoord, tangent, colour and index
// buffers with their counts and presence flags, and the in-place operations on
// them. Triangle `t` uses the corners `indexes[3t..3t+2]` when the mesh is
// indexed and `3t, 3t+1, 3t+2` (in 16-bit index arithmetic) otherwise; UV set
// `k` occupies `texcoords[k*vertexCount .. (k+1)*vertexCount]`.
module Meshes {
  import opened Base
  import opened MeshTypes

  /** The key `composeIndex` compares: absent attributes are replaced by zero. */
  datatype VertexKey = VertexKey(v: Vec3, n: Vec3, uv1: Vec2, uv2: Vec2, tv: Vec3, bv: Vec3)

  /** An abstract snapshot of a mesh: counts, flags, and the contents of the buffers that are present. */
  datatype MeshData = MeshData(
    vertexCount: nat, uvCount: nat, indexCount: nat, edgeCount: nat,
    hasNormal: bool, hasTexcoord: bool, hasTangentSpaceBasis: bool, hasBoundingBox: bool,
    hasColor: bool, hasLightmap: bool, hasRefmap: bool, hasGrabBoundary: bool,
    vertices: seq<Vec3>, normals: seq<Vec3>, texcoords: seq<Vec2>,
    tangents: seq<Vec3>, bitangents: seq<Vec3>, colors: seq<Color3>,
    indexes: seq<U16>, edges: seq<Edge>,
    bbox: BoundingBox, grabBoundary: GrabBoundary,
    lightmapTrunkUid: nat, refmapTrunkUid: nat)

  /** The buffer lengths of a valid mesh's snapshot: absent buffers are empty. */
  predicate Sized(d: MeshData)
  {
    |d.vertices| == d.vertexCount
    && |d.normals| == (if d.hasNormal then d.vertexCount else 0)
    && |d.texcoords| == (if d.hasTexcoord then d.vertexCount * d.uvCount else 0)
    && |d.tangents| == (if d.hasTangentSpaceBasis then d.vertexCount else 0)
    && |d.bitangents| == (if d.hasTangentSpaceBasis then d.vertexCount else 0)
    && |d.colors| == (if d.hasColor then d.vertexCount else 0)
    && |d.indexes| == d.indexCount
  }

  /** Copies `src` into `dst` starting at `off` (a `memcpy`). */
  method CopyInto<T>(dst: array<T>, off: nat, src: seq<T>)
    requires off + |src| <= dst.Length
    modifies dst
    ensures dst[..] == old(dst[..off]) + src + old(dst[off + |src|..])
  {
    var i := 0;
    while i < |src|
      invariant 0 <= i <= |src|
      invariant dst[..] == old(dst[..off]) + src[..i] + old(dst[off + i..])
    {
      dst[off + i] := src[i];
      i := i + 1;
      assert src[..i] == src[..i - 1] + [src[i - 1]];
    }
    assert src[..i] == src;
  }

  /** A fresh buffer holding `src` (`new T[n]` followed by a `memcpy`). */
  method FromSeq<T(0)>(src: seq<T>) returns (a: array<T>)
    ensures fresh(a) && a[..] == src
  {
    a := new T[|src|];
    CopyInto(a, 0, src);
    assert a[..] == src;
  }

  /** Expands an indexed buffer into a fresh one: entry `i` is `src[idx[i]]`. */
  method GatherInto<T(0)>(src: array<T>, idx: array<U16>, count: nat) returns (dst: array<T>)
    requires count <= idx.Length
    requires forall i :: 0 <= i < count ==> idx[i] < src.Length
    ensures fresh(dst)
    ensures IndexesBelow(idx[..count], src.Length)
    ensures dst[..] == Gather(src[..], idx[..count])
  {
    dst := new T[count];
    var i := 0;
    while i < count
      invariant 0 <= i <= count
      invariant forall j :: 0 <= j < i ==> dst[j] == src[idx[j]]
    {
      dst[i] := src[idx[i]];
      i := i + 1;
    }
  }

  /** `GatherInto` when `present`; otherwise `src` itself is kept. */
  method GatherIf<T(0)>(present: bool, src: array?<T>, idx: array<U16>, count: nat) returns (dst: array?<T>)
    requires count <= idx.Length
    requires present ==> src != null && forall i :: 0 <= i < count ==> idx[i] < src.Length
    ensures present ==> src != null && dst != null && fresh(dst)
    ensures present ==> IndexesBelow(idx[..count], src.Length) && dst[..] == Gather(src[..], idx[..count])
    ensures !present ==> dst == src
  {
    dst := src;
    if present {
      dst := GatherInto(src, idx, count);
    }
  }

  /** Gathers one block: `dst[at + i] := src[from + idx[i]]` for every `i < count`. */
  method GatherBlockInto<T>(src: array<T>, from: nat, n: nat, idx: array<U16>, count: nat, dst: array<T>, at: nat)
    requires from + n <= src.Length && count <= idx.Length && at + count <= dst.Length
    requires src != dst && dst as object != idx as object
    requires forall i :: 0 <= i < count ==> idx[i] < n
    modifies dst
    ensures IndexesBelow(idx[..count], n)
    ensures dst[..at] == old(dst[..at]) && dst[at + count..] == old(dst[at + count..])
    ensures dst[at..at + count] == Gather(src[from..from + n], idx[..count])
  {
    var i := 0;
    while i < count
      invariant i <= count
      invariant dst[..at] == old(dst[..at]) && dst[at + count..] == old(dst[at + count..])
      invariant forall j :: 0 <= j < i ==> dst[at + j] == src[from + idx[j]]
    {
      dst[at + i] := src[from + idx[i]];
      i := i + 1;
    }
  }

  /** Appends the expansion of block `k` to a buffer that holds the expansion of the first `k` blocks. */
  method GatherSetAt<T>(src: array<T>, n: nat, k: nat, idx: array<U16>, count: nat, dst: array<T>)
    requires n * (k + 1) <= src.Length && count <= idx.Length && count * (k + 1) <= dst.Length
    requires src != dst && dst as object != idx as object
    requires forall i :: 0 <= i < count ==> idx[i] < n
    requires dst[..count * k] == GatherSets(src[..n * k], n, k, idx[..count])
    modifies dst
    ensures dst[..count * (k + 1)] == GatherSets(src[..n * (k + 1)], n, k + 1, idx[..count])
  {
    MulSucc(count, k);
    MulSucc(n, k);
    ghost var keys: seq<nat> := idx[..count];
    GatherBlockInto(src, n * k, n, idx, count, dst, count * k);
    GatherSetsGrow(src[..], n, k, keys);
    PrefixSplits(dst[..], count * k, count * k + count);
  }

  /**
   * Expands `sets` blocks of `n` values (the UV sets of a texcoord buffer) into
   * a fresh buffer of `sets` blocks of `count` values: entry `i` of block `k` is
   * entry `idx[i]` of block `k` of `src`.
   */
  method GatherSetsInto<T(0)>(src: array<T>, n: nat, sets: nat, idx: array<U16>, count: nat) returns (dst: array<T>)
    requires src.Length == n * sets && count <= idx.Length
    requires forall i :: 0 <= i < count ==> idx[i] < n
    ensures fresh(dst)
    ensures IndexesBelow(idx[..count], n)
    ensures dst[..] == GatherSets(src[..], n, sets, idx[..count])
  {
    ghost var keys: seq<nat> := idx[..count];
    dst := new T[count * sets];
    var k := 0;
    while k < sets
      invariant k <= sets && count * k <= dst.Length && n * k <= src.Length
      invariant dst[..count * k] == GatherSets(src[..n * k], n, k, keys)
    {
      MulMonotone(count, k + 1, sets);
      MulMonotone(n, k + 1, sets);
      GatherSetAt(src, n, k, idx, count, dst);
      k := k + 1;
    }
    assert dst[..count * sets] == dst[..];
    assert src[..n * sets] == src[..];
  }

  /** `GatherSetsInto` when `present`; otherwise `src` itself is kept. */
  method GatherSetsIf<T(0)>(present: bool, src: array?<T>, n: nat, sets: nat, idx: array<U16>, count: nat)
    returns (dst: array?<T>)
    requires count <= idx.Length
    requires present ==> src != null && src.Length == n * sets && forall i :: 0 <= i < count ==> idx[i] < n
    ensures present ==> src != null && dst != null && fresh(dst)
    ensures present ==>
      (IndexesBelow(idx[..count], n) && |src[..]| == n * sets
       && dst[..] == GatherSets(src[..], n, sets, idx[..count]))
    ensures !present ==> dst == src
  {
    dst := src;
    if present {
      dst := GatherSetsInto(src, n, sets, idx, count);
    }
  }

  /**
   * Exchanges the values at the last two corners of `c`: the effect of reading
   * a triangle's three corner values and writing them back with the last two
   * exchanged.
   */
  method SwapCornersIn<T>(a: array<T>, c: Corners)
    requires CornersBelow(c, a.Length)
    modifies a
    ensures a[..] == SwapCorners(old(a[..]), c)
  {
    var v1, v2, v3 := a[c.c1], a[c.c2], a[c.c3];
    a[c.c1] := v1;
    a[c.c2] := v3;
    a[c.c3] := v2;
  }

  /** `SwapCornersIn` for one triangle in each of `sets` blocks of `n` values, block by block. */
  method SwapCornersInSets<T>(a: array<T>, n: nat, sets: nat, c: Corners)
    requires a.Length == n * sets && CornersBelow(c, n)
    modifies a
    ensures a[..] == SwapInSets(old(a[..]), n, sets, c)
  {
    var k := 0;
    while k < sets
      invariant k <= sets && n * k <= a.Length
      invariant a[..] == SwapInSets(old(a[..]), n, k, c)
    {
      MulMonotone(n, k + 1, sets);
      SwapInSetsStep(old(a[..]), n, k, c);
      SwapCornersIn(a, Shift(c, n * k));
      k := k + 1;
    }
  }

  /**
   * The loop of `inversePolygonVertexOrder` over the triangles `cs`: for each in
   * turn, the positions (when `positions`), the normals (when `withNormals`) and
   * every UV set of the texcoords (when `withUVs`) get the triangle's last two
   * corners exchanged.
   */
  method RewindTriangles(vertices: array?<Vec3>, normals: array?<Vec3>, texcoords: array?<Vec2>,
                         n: nat, sets: nat, cs: seq<Corners>,
                         positions: bool, withNormals: bool, withUVs: bool)
    requires positions ==> vertices != null && vertices.Length == n
    requires withNormals ==> normals != null && normals.Length == n
    requires withUVs ==> texcoords != null && texcoords.Length == n * sets
    requires vertices != null && normals != null ==> vertices != normals
    requires forall m :: 0 <= m < |cs| ==> CornersBelow(cs[m], n)
    modifies vertices, normals, texcoords
    ensures positions ==> vertices[..] == SwapAll(old(vertices[..]), cs)
    ensures !positions && vertices != null ==> vertices[..] == old(vertices[..])
    ensures withNormals ==> normals[..] == SwapAll(old(normals[..]), cs)
    ensures !withNormals && normals != null ==> normals[..] == old(normals[..])
    ensures withUVs ==> texcoords[..] == SwapAllInSets(old(texcoords[..]), n, sets, cs)
    ensures !withUVs && texcoords != null ==> texcoords[..] == old(texcoords[..])
  {
    var i := 0;
    while i < |cs|
      invariant i <= |cs|
      invariant positions ==> vertices[..] == SwapAll(old(vertices[..]), cs[..i])
      invariant withNormals ==> normals[..] == SwapAll(old(normals[..]), cs[..i])
      invariant withUVs ==> texcoords[..] == SwapAllInSets(old(texcoords[..]), n, sets, cs[..i])
      invariant !positions && vertices != null ==> vertices[..] == old(vertices[..])
      invariant !withNormals && normals != null ==> normals[..] == old(normals[..])
      invariant !withUVs && texcoords != null ==> texcoords[..] == old(texcoords[..])
    {
      assert cs[..i + 1][..i] == cs[..i];
      if positions {
        SwapCornersIn(vertices, cs[i]);
      }
      if withNormals {
        SwapCornersIn(normals, cs[i]);
      }
      if withUVs {
        SwapCornersInSets(texcoords, n, sets, cs[i]);
      }
      i := i + 1;
    }
    assert cs[..|cs|] == cs;
  }

  /** The parts of a composed vertex key. */
  function Position(k: VertexKey): Vec3 { k.v }
  function Normal(k: VertexKey): Vec3 { k.n }
  function FirstUV(k: VertexKey): Vec2 { k.uv1 }
  function SecondUV(k: VertexKey): Vec2 { k.uv2 }
  function Tangent(k: VertexKey): Vec3 { k.tv }
  function Bitangent(k: VertexKey): Vec3 { k.bv }

  /** The position of the first `i` in `s` equal to `key`, found by a linear search, is `IndexOf`. */
  lemma IndexOfIsFirst<K>(s: seq<K>, key: K, k: nat)
    requires k <= |s| && (k < |s| ==> s[k] == key) && forall j :: 0 <= j < k ==> s[j] != key
    ensures IndexOf(s, key) == k
  {
  }

  /**
   * The index-composition loop of `composeIndex`: each key is looked up among
   * the distinct keys kept so far by a linear search and appended when new; its
   * position, truncated to the 16-bit index type, goes into the index buffer.
   */
  method ComposeKeys(keys: seq<VertexKey>) returns (distinct: seq<VertexKey>, idx: array<U16>)
    ensures fresh(idx) && idx.Length == |keys|
    ensures distinct == Dedup(keys).0 && idx[..] == Project(Dedup(keys).1, ToU16)
  {
    idx := new U16[|keys|];
    distinct := [];
    ghost var positions: seq<nat> := [];
    var i := 0;
    while i < |keys|
      invariant 0 <= i <= |keys|
      invariant (distinct, positions) == Dedup(keys[..i])
      invariant idx[..i] == Project(positions, ToU16)
    {
      var key := keys[i];
      var k := 0;
      while k < |distinct| && distinct[k] != key
        invariant 0 <= k <= |distinct|
        invariant forall j :: 0 <= j < k ==> distinct[j] != key
      {
        k := k + 1;
      }
      IndexOfIsFirst(distinct, key, k);
      assert keys[..i + 1][..i] == keys[..i];
      if k == |distinct| {
        distinct := distinct + [key];
      }
      idx[i] := ToU16(k);
      positions := positions + [k];
      i := i + 1;
    }
    assert keys[..i] == keys;
  }

  /** A buffer that exists and holds `s` when `present`, and no buffer otherwise. */
  predicate Holds<T(==)>(present: bool, a: array?<T>, s: seq<T>)
    reads a
  {
    if present then a != null && a[..] == s else a == null
  }

  /**
   * A texcoord buffer of `sets` blocks of `|first|` entries whose first block
   * is `first` and whose second block (if any) is `second`, when `present`; no
   * buffer otherwise.
   */
  predicate HoldsUVs(present: bool, a: array?<Vec2>, sets: nat, first: seq<Vec2>, second: seq<Vec2>)
    reads a
  {
    if present then
      a != null && a.Length == |first| * sets && |first| <= a.Length && a[..|first|] == first
      && (sets > 1 ==> 2 * |first| <= a.Length && a[|first|..2 * |first|] == second)
    else a == null
  }

  /** A fresh buffer holding `src` when `present`, no buffer otherwise. */
  method BufferIf<T(0)>(present: bool, src: seq<T>) returns (a: array?<T>)
    ensures present ==> a != null && fresh(a) && a[..] == src
    ensures !present ==> a == null
  {
    a := null;
    if present {
      a := FromSeq(src);
    }
  }

  /**
   * The texcoord buffer `composeIndex` rebuilds: `sets` blocks of `|keys|`
   * entries of which only the first two are written, from the keys' first and
   * second UV.
   */
  method ComposedTexcoords(present: bool, keys: seq<VertexKey>, sets: nat) returns (a: array?<Vec2>)
    requires present ==> sets >= 1
    ensures present ==> fresh(a)
    ensures HoldsUVs(present, a, sets, Project(keys, FirstUV), Project(keys, SecondUV))
  {
    a := null;
    if present {
      var n := |keys|;
      MulMonotone(n, 1, sets);
      a := new Vec2[n * sets];
      CopyInto(a, 0, Project(keys, FirstUV));
      if sets > 1 {
        BlockInside(n, 1, sets);
        CopyInto(a, n, Project(keys, SecondUV));
        assert a[n..2 * n] == Project(keys, SecondUV);
      }
      assert a[..n] == Project(keys, FirstUV);
    }
  }

  /** The position, normal and tangent-space buffers `composeIndex` rebuilds from the distinct keys. */
  method ComposedVectors(keys: seq<VertexKey>, withNormals: bool, withTangents: bool)
    returns (vertices: array<Vec3>, normals: array?<Vec3>, tangents: array?<Vec3>, bitangents: array?<Vec3>)
    ensures fresh(vertices) && vertices[..] == Project(keys, Position)
    ensures withNormals ==> fresh(normals)
    ensures withTangents ==> fresh(tangents) && fresh(bitangents)
    ensures Holds(withNormals, normals, Project(keys, Normal))
    ensures Holds(withTangents, tangents, Project(keys, Tangent))
    ensures Holds(withTangents, bitangents, Project(keys, Bitangent))
    ensures normals != null ==> normals != vertices
    ensures tangents != null ==> tangents != vertices && tangents != normals && tangents != bitangents
    ensures bitangents != null ==> bitangents != vertices && bitangents != normals
  {
    vertices := FromSeq(Project(keys, Position));
    normals := BufferIf(withNormals, Project(keys, Normal));
    tangents := BufferIf(withTangents, Project(keys, Tangent));
    bitangents := BufferIf(withTangents, Project(keys, Bitangent));
  }

  /** The bounding-box loop of `calcBoundingBox`: starts from the first point and grows by every later one. */
  method BoxOf(vs: array<Vec3>, n: nat) returns (b: BoundingBox)
    requires 0 < n <= vs.Length
    ensures TightBox(b, vs[..n])
  {
    b := PointBox(vs[0]);
    assert vs[..1] == [vs[0]];
    var i := 1;
    while i < n
      invariant 1 <= i <= n
      invariant TightBox(b, vs[..i])
    {
      ExtendTight(b, vs[..i], vs[i]);
      b := Extend(b, vs[i]);
      assert vs[..i + 1] == vs[..i] + [vs[i]];
      i := i + 1;
    }
  }

  /**
   * The buffer `appendUVBuffer` allocates: `total` zeroed entries, the first
   * `keep` of them copied from the previous buffer when there is one.
   */
  method GrownUVBuffer(previous: array?<Vec2>, keep: nat, total: nat) returns (a: array<Vec2>)
    requires keep <= total && (previous != null ==> keep <= previous.Length)
    ensures fresh(a) && a.Length == total
    ensures previous != null ==> a[..keep] == previous[..keep]
    ensures previous == null ==> forall i :: 0 <= i < keep ==> a[i] == Zero2
    ensures forall i :: keep <= i < total ==> a[i] == Zero2
  {
    a := new Vec2[total](_ => Zero2);
    if previous != null {
      CopyInto(a, 0, previous[..keep]);
      assert a[..keep] == previous[..keep];
    }
  }

  /** `indexOfAlmostSameEdgeInList`: a linear search for the first `almostSame` entry, -1 when there is none. */
  method IndexOfAlmostSameEdgeInList(edges: seq<Edge>, e: Edge) returns (r: int)
    ensures r == FindAlmostSame(edges, e)
  {
    var i := 0;
    while i < |edges|
      invariant 0 <= i <= |edges|
      invariant forall j :: 0 <= j < i ==> !AlmostSame(edges[j], e)
    {
      if AlmostSame(edges[i], e) {
        return i;
      }
      i := i + 1;
    }
    return -1;
  }

  /** One triangle of `getDistinctEdges`: its three edges offered in turn. */
  method AddTriangleEdges(list: seq<Edge>, tri: (Vec3, Vec3, Vec3)) returns (r: seq<Edge>)
    ensures r == AddAllDistinct(list, TriangleEdges(tri))
  {
    var e1, e2, e3 := Edge(tri.0, tri.1), Edge(tri.1, tri.2), Edge(tri.0, tri.2);
    var es := TriangleEdges(tri);
    assert es[0] == e1 && es[1..] == [e2, e3] && es[1..][1..] == [e3] && es[1..][1..][1..] == [];
    r := list;
    var k := IndexOfAlmostSameEdgeInList(r, e1);
    if k < 0 {
      r := r + [e1];
    }
    assert r == AddDistinct(list, e1);
    ghost var r1 := r;
    k := IndexOfAlmostSameEdgeInList(r, e2);
    if k < 0 {
      r := r + [e2];
    }
    assert r == AddDistinct(r1, e2);
    ghost var r2 := r;
    k := IndexOfAlmostSameEdgeInList(r, e3);
    if k < 0 {
      r := r + [e3];
    }
    assert r == AddDistinct(r2, e3) == AddAllDistinct(r2, [e3]);
    assert AddAllDistinct(r1, [e2, e3]) == AddAllDistinct(r2, [e3]);
    assert AddAllDistinct(list, es) == AddAllDistinct(r1, [e2, e3]);
  }

  /** The triangle loop of `getDistinctEdges` over the triangles' corner positions. */
  method AddDistinctEdges(edges: seq<Edge>, tris: seq<(Vec3, Vec3, Vec3)>) returns (r: seq<Edge>)
    ensures r == DistinctEdges(edges, tris)
  {
    r := edges;
    var t := 0;
    while t < |tris|
      invariant 0 <= t <= |tris|
      invariant r == DistinctEdges(edges, tris[..t])
    {
      r := AddTriangleEdges(r, tris[t]);
      assert tris[..t + 1][..t] == tris[..t];
      t := t + 1;
    }
    assert tris[..t] == tris;
  }

  /**
   * What the guarded `setVertex` does to `inversePolygonVertexOrder` on a mesh
   * without texcoords: the normals of a triangle are rewound while its
   * positions stay, so the second corner's position ends up with the third
   * corner's normal.
   */
  lemma NormalsDetachedWithoutTexcoords(ps: seq<Vec3>, ns: seq<Vec3>)
    requires |ps| == 3 && |ns| == 3 && ns[1] != ns[2]
    ensures SwapAll(ns, UnindexedCornerList(1))[1] == ns[2] != ns[1]
    ensures SwapAll(ps, UnindexedCornerList(1))[1] == ps[2]
  {
    assert UnindexedCornerList(1) == [Corners(0, 1, 2)];
    assert SwapAll(ns, [Corners(0, 1, 2)]) == SwapCorners(ns, Corners(0, 1, 2));
    assert SwapAll(ps, [Corners(0, 1, 2)]) == SwapCorners(ps, Corners(0, 1, 2));
  }

  class Mesh {
    var vertexCount: nat
    var uvCount: nat
    var indexCount: nat
    var edgeCount: nat

    var hasNormal: bool
    var hasTexcoord: bool
    var hasTangentSpaceBasis: bool
    var hasBoundingBox: bool
    var hasColor: bool
    var hasLightmap: bool
    var hasRefmap: bool
    var hasGrabBoundary: bool

    var vertices: array?<Vec3>
    var normals: array?<Vec3>
    var texcoords: array?<Vec2>
    var tangents: array?<Vec3>
    var bitangents: array?<Vec3>
    var indexes: array?<U16>
    var colors: array?<Color3>
    var edges: array?<Edge>

    var bbox: BoundingBox
    var grabBoundary: GrabBoundary

    var trunkUid: nat
    var lightmapTrunkUid: nat
    var lightmap: Option<TextureRef>
    var refmapTrunkUid: nat
    var refmap: Option<TextureRef>

    /**
     * Every buffer whose flag is set exists and has the length its counts give;
     * the vector buffers are distinct objects. The colour buffer may be longer
     * than `vertexCount`, because `composeIndex` shrinks the vertex count without
     * rebuilding it.
     */
    predicate Valid()
      reads this
    {
      PositionsValid() && NormalsValid() && TangentsValid()
      && TexcoordsValid() && ColorsValid() && IndexBufferValid()
    }

    predicate PositionsValid()
      reads this
    {
      (vertices == null ==> vertexCount == 0) && (vertices != null ==> vertices.Length == vertexCount)
    }

    predicate NormalsValid()
      reads this
    {
      (normals != null ==> normals != vertices)
      && (hasNormal ==> normals != null && normals.Length == vertexCount)
    }

    predicate TangentsValid()
      reads this
    {
      hasTangentSpaceBasis ==>
        tangents != null && tangents.Length == vertexCount
        && bitangents != null && bitangents.Length == vertexCount
        && tangents != bitangents && tangents != vertices && bitangents != vertices
        && (hasNormal ==> tangents != normals && bitangents != normals)
    }

    predicate TexcoordsValid()
      reads this
    {
      hasTexcoord ==> texcoords != null && texcoords.Length == vertexCount * uvCount
    }

    predicate ColorsValid()
      reads this
    {
      hasColor ==> colors != null && colors.Length >= vertexCount
    }

    predicate IndexBufferValid()
      reads this
    {
      indexCount > 0 ==> indexes != null && indexes.Length == indexCount
    }

    /** Every index-buffer entry names an existing vertex (so an indexed mesh has vertices). */
    predicate IndexesInRange()
      reads this, indexes
      requires Valid()
    {
      indexCount > 0 ==> vertexCount > 0 && forall i :: 0 <= i < indexCount ==> indexes[i] < vertexCount
    }

    /** The abstract state: counts, flags and the buffers the flags declare present. */
    function Data(): (d: MeshData)
      reads this, vertices, normals, texcoords, tangents, bitangents, indexes, colors, edges
      requires Valid()
      ensures Sized(d)
    {
      MeshData(
        vertexCount, uvCount, indexCount, edgeCount,
        hasNormal, hasTexcoord, hasTangentSpaceBasis, hasBoundingBox,
        hasColor, hasLightmap, hasRefmap, hasGrabBoundary,
        if vertices != null then vertices[..] else [],
        if hasNormal then normals[..] else [],
        if hasTexcoord then texcoords[..] else [],
        if hasTangentSpaceBasis then tangents[..] else [],
        if hasTangentSpaceBasis then bitangents[..] else [],
        if hasColor then colors[..vertexCount] else [],
        if indexCount > 0 then indexes[..] else [],
        if edges != null then edges[..] else [],
        bbox, grabBoundary, lightmapTrunkUid, refmapTrunkUid)
    }

    /** A new mesh: no buffers, all counts zero, all flags false. */
    constructor ()
      ensures Valid()
      ensures vertexCount == 0 && uvCount == 0 && indexCount == 0 && edgeCount == 0
      ensures !hasNormal && !hasTexcoord && !hasTangentSpaceBasis && !hasBoundingBox
      ensures !hasColor && !hasLightmap && !hasRefmap && !hasGrabBoundary
      ensures vertices == null && normals == null && texcoords == null && tangents == null
      ensures bitangents == null && indexes == null && colors == null && edges == null
      ensures lightmap == None && refmap == None
      ensures trunkUid == 0 && lightmapTrunkUid == 0 && refmapTrunkUid == 0
    {
      vertexCount, uvCount, indexCount, edgeCount := 0, 0, 0, 0;
      hasNormal, hasTexcoord, hasTangentSpaceBasis, hasBoundingBox := false, false, false, false;
      hasColor, hasLightmap, hasRefmap, hasGrabBoundary := false, false, false, false;
      vertices, normals, texcoords, tangents := null, null, null, null;
      bitangents, indexes, colors, edges := null, null, null, null;
      bbox, grabBoundary := DefaultBox, NoGrab;
      trunkUid, lightmapTrunkUid, refmapTrunkUid := 0, 0, 0;
      lightmap, refmap := None, None;
    }

    /** Everything but the counts and the buffers `init` allocates. */
    function Description(): (bool, bool, bool, bool, bool, bool, bool, bool, nat, array?<Edge>, BoundingBox, GrabBoundary,
                             (nat, nat, nat, Option<TextureRef>, Option<TextureRef>))
      reads this
    {
      (hasNormal, hasTexcoord, hasTangentSpaceBasis, hasColor, hasBoundingBox, hasLightmap, hasRefmap, hasGrabBoundary,
       edgeCount, edges, bbox, grabBoundary, (trunkUid, lightmapTrunkUid, refmapTrunkUid, lightmap, refmap))
    }

    /**
     * `init`: sets the counts and allocates the buffers the flags ask for, with
     * unspecified contents: a vertex buffer always, and normal, texcoord
     * (`vertexCount * uvCount`), index (only when `indexCount > 0`),
     * tangent/bitangent and colour buffers by flag. Buffers not allocated are
     * left as they were.
     */
    method Init(vc: nat, uvc: nat, ic: nat)
      modifies this
      ensures Valid() && Description() == old(Description())
      ensures vertexCount == vc && uvCount == uvc && indexCount == ic
      ensures fresh(vertices) && (hasColor ==> colors.Length == vc)
      ensures (hasNormal ==> fresh(normals)) && (hasTexcoord ==> fresh(texcoords)) && (hasColor ==> fresh(colors))
      ensures (hasTangentSpaceBasis ==> fresh(tangents) && fresh(bitangents)) && (ic > 0 ==> fresh(indexes))
      ensures (!hasNormal ==> normals == old(normals)) && (!hasTexcoord ==> texcoords == old(texcoords))
      ensures !hasColor ==> colors == old(colors)
    {
      vertexCount, uvCount, indexCount := vc, uvc, ic;
      vertices := new Vec3[vc];
      AllocateBuffers();
    }

    /** The buffer allocations of `init` after the vertex buffer, split so that each step stays small. */
    method AllocateBuffers()
      requires PositionsValid() && (normals != null ==> normals != vertices)
      modifies this
      ensures Valid() && Description() == old(Description()) && vertices == old(vertices)
      ensures vertexCount == old(vertexCount) && uvCount == old(uvCount) && indexCount == old(indexCount)
      ensures hasColor ==> colors.Length == vertexCount
      ensures (hasNormal ==> fresh(normals)) && (hasTexcoord ==> fresh(texcoords)) && (hasColor ==> fresh(colors))
      ensures (hasTangentSpaceBasis ==> fresh(tangents) && fresh(bitangents)) && (indexCount > 0 ==> fresh(indexes))
      ensures (!hasNormal ==> normals == old(normals)) && (!hasTexcoord ==> texcoords == old(texcoords))
      ensures !hasColor ==> colors == old(colors)
    {
      AllocateVectorBuffers();
      AllocateTexcoordsAndIndexes();
      AllocateColors();
    }

    method AllocateVectorBuffers()
      requires PositionsValid() && (normals != null ==> normals != vertices)
      modifies this
      ensures PositionsValid() && NormalsValid() && TangentsValid() && (hasNormal ==> fresh(normals))
      ensures hasTangentSpaceBasis ==> fresh(tangents) && fresh(bitangents)
      ensures !hasNormal ==> normals == old(normals)
      ensures Description() == old(Description()) && vertices == old(vertices) && texcoords == old(texcoords) && colors == old(colors)
      ensures vertexCount == old(vertexCount) && uvCount == old(uvCount) && indexCount == old(indexCount)
    {
      if hasNormal {
        normals := new Vec3[vertexCount];
      }
      if hasTangentSpaceBasis {
        tangents := new Vec3[vertexCount];
        bitangents := new Vec3[vertexCount];
      }
    }

    method AllocateTexcoordsAndIndexes()
      requires PositionsValid() && NormalsValid() && TangentsValid()
      modifies this
      ensures PositionsValid() && NormalsValid() && TangentsValid() && TexcoordsValid() && IndexBufferValid()
      ensures (hasTexcoord ==> fresh(texcoords)) && (!hasTexcoord ==> texcoords == old(texcoords))
      ensures (indexCount > 0 ==> fresh(indexes)) && tangents == old(tangents) && bitangents == old(bitangents)
      ensures normals == old(normals) && colors == old(colors)
      ensures Description() == old(Description()) && vertices == old(vertices)
      ensures vertexCount == old(vertexCount) && uvCount == old(uvCount) && indexCount == old(indexCount)
    {
      if hasTexcoord {
        texcoords := new Vec2[vertexCount * uvCount];
      }
      if indexCount > 0 {
        indexes := new U16[indexCount];
      }
    }

    method AllocateColors()
      requires PositionsValid() && NormalsValid() && TangentsValid() && TexcoordsValid() && IndexBufferValid()
      modifies this
      ensures Valid() && (hasColor ==> colors.Length == vertexCount && fresh(colors)) && (!hasColor ==> colors == old(colors))
      ensures normals == old(normals) && texcoords == old(texcoords)
      ensures tangents == old(tangents) && bitangents == old(bitangents) && indexes == old(indexes)
      ensures Description() == old(Description()) && vertices == old(vertices)
      ensures vertexCount == old(vertexCount) && uvCount == old(uvCount) && indexCount == old(indexCount)
    {
      if hasColor {
        colors := new Color3[vertexCount];
      }
    }

    /** `getTriangleCount`: the number of complete triangles in the index buffer, or in the vertex buffer when there is none. */
    function TriangleCount(): (r: nat)
      reads this
      ensures indexCount > 0 ==> 3 * r <= indexCount < 3 * r + 3
      ensures indexCount == 0 ==> 3 * r <= vertexCount < 3 * r + 3
    {
      if indexCount > 0 then indexCount / 3 else vertexCount / 3
    }

    /** `getIndexes`: the three index-buffer entries of triangle `t`. */
    function GetIndexes(t: nat): (r: Corners)
      reads this, indexes
      requires indexes != null && 3 * t + 2 < indexes.Length
      ensures r.c1 < U16Range && r.c2 < U16Range && r.c3 < U16Range
    {
      Corners(indexes[3 * t], indexes[3 * t + 1], indexes[3 * t + 2])
    }

    /** The vertex slots of triangle `t`. */
    function CornersOf(t: nat): (r: Corners)
      reads this, indexes
      requires Valid() && IndexesInRange() && t < TriangleCount()
      ensures CornersBelow(r, vertexCount)
      ensures indexCount > 0 ==> r == Corners(indexes[3 * t], indexes[3 * t + 1], indexes[3 * t + 2])
      ensures indexCount == 0 && 3 * t + 2 < U16Range ==> r == Corners(3 * t, 3 * t + 1, 3 * t + 2)
    {
      if indexCount > 0 then GetIndexes(t) else UnindexedCorners(t)
    }

    /** The slots of the first `n` triangles, in triangle order. */
    function AllCorners(n: nat): (r: seq<Corners>)
      reads this, indexes
      requires Valid() && IndexesInRange() && n <= TriangleCount()
      ensures |r| == n
      ensures forall t :: 0 <= t < n ==> r[t] == CornersOf(t)
      ensures forall t :: 0 <= t < n ==> CornersBelow(r[t], vertexCount)
    {
      if n == 0 then [] else AllCorners(n - 1) + [CornersOf(n - 1)]
    }

    /** `getVertex` (no guard in the source): the three corner positions of triangle `t`. */
    function GetVertex(t: nat): (r: (Vec3, Vec3, Vec3))
      reads this, indexes, vertices
      requires Valid() && IndexesInRange() && t < TriangleCount()
      ensures var c := CornersOf(t); r == (vertices[c.c1], vertices[c.c2], vertices[c.c3])
    {
      var c := CornersOf(t);
      (vertices[c.c1], vertices[c.c2], vertices[c.c3])
    }

    /**
     * `getNormal`: the corner normals of triangle `t`, or the caller's `init`
     * values untouched when the mesh has no normals or no vertices.
     */
    function GetNormal(t: nat, init: (Vec3, Vec3, Vec3)): (r: (Vec3, Vec3, Vec3))
      reads this, indexes, normals
      requires Valid() && IndexesInRange() && t < TriangleCount()
      ensures !hasNormal || vertexCount == 0 ==> r == init
      ensures hasNormal && vertexCount > 0 ==>
        var c := CornersOf(t); r == (normals[c.c1], normals[c.c2], normals[c.c3])
    {
      if !hasNormal || vertexCount == 0 then init
      else
        var c := CornersOf(t);
        (normals[c.c1], normals[c.c2], normals[c.c3])
    }

    /** Whether `getUV` / `setUV` act: texcoords present, vertices present, and the set exists. */
    predicate UVAccessible(uvIndex: nat)
      reads this
    {
      hasTexcoord && vertexCount > 0 && uvIndex < uvCount
    }

    /** The texcoord slots of triangle `t` in UV set `uvIndex`: its corners moved to offset `uvIndex * vertexCount`. */
    function UVSlots(uvIndex: nat, t: nat): (c: Corners)
      reads this, indexes
      requires Valid() && IndexesInRange() && t < TriangleCount() && UVAccessible(uvIndex)
      ensures CornersBelow(c, texcoords.Length)
    {
      BlockInside(vertexCount, uvIndex, uvCount);
      Shift(CornersOf(t), uvIndex * vertexCount)
    }

    /**
     * `getUV`: the corner texcoords of triangle `t` in UV set `uvIndex`, read at
     * offset `uvIndex * vertexCount`; the caller's `init` values when that set is
     * not accessible.
     */
    function GetUV(uvIndex: nat, t: nat, init: (Vec2, Vec2, Vec2)): (r: (Vec2, Vec2, Vec2))
      reads this, indexes, texcoords
      requires Valid() && IndexesInRange() && t < TriangleCount()
      ensures !UVAccessible(uvIndex) ==> r == init
      ensures UVAccessible(uvIndex) ==>
        var c := UVSlots(uvIndex, t); r == (texcoords[c.c1], texcoords[c.c2], texcoords[c.c3])
    {
      if !UVAccessible(uvIndex) then init
      else
        var c := UVSlots(uvIndex, t);
        (texcoords[c.c1], texcoords[c.c2], texcoords[c.c3])
    }

    /**
     * `setVertex`: writes the corner positions of triangle `t`. As written it
     * does nothing unless the mesh has texcoords (and vertices).
     */
    method SetVertex(t: nat, v1: Vec3, v2: Vec3, v3: Vec3)
      requires Valid() && IndexesInRange() && t < TriangleCount()
      modifies vertices
      ensures !hasTexcoord || vertexCount == 0 ==> vertices == null || vertices[..] == old(vertices[..])
      ensures hasTexcoord && vertexCount > 0 ==>
        var c := CornersOf(t);
        vertices[..] == old(vertices[..])[c.c1 := v1][c.c2 := v2][c.c3 := v3]
    {
      if !hasTexcoord || vertexCount == 0 {
        return;
      }
      var c := CornersOf(t);
      vertices[c.c1] := v1;
      vertices[c.c2] := v2;
      vertices[c.c3] := v3;
    }

    /** The intended `setVertex`: guarded only by the vertex count, like `setNormal`. */
    method SetVertexFixed(t: nat, v1: Vec3, v2: Vec3, v3: Vec3)
      requires Valid() && IndexesInRange() && t < TriangleCount()
      modifies vertices
      ensures vertexCount == 0 ==> vertices == null || vertices[..] == old(vertices[..])
      ensures vertexCount > 0 ==>
        var c := CornersOf(t);
        vertices[..] == old(vertices[..])[c.c1 := v1][c.c2 := v2][c.c3 := v3]
      ensures vertexCount > 0 && DistinctCorners(CornersOf(t)) ==>
        GetVertex(t) == (v1, v2, v3)
    {
      if vertexCount == 0 {
        return;
      }
      var c := CornersOf(t);
      vertices[c.c1] := v1;
      vertices[c.c2] := v2;
      vertices[c.c3] := v3;
    }

    /** `setNormal`: writes the corner normals of triangle `t` when the mesh has normals. */
    method SetNormal(t: nat, n1: Vec3, n2: Vec3, n3: Vec3)
      requires Valid() && IndexesInRange() && t < TriangleCount()
      modifies normals
      ensures !hasNormal || vertexCount == 0 ==> normals == null || normals[..] == old(normals[..])
      ensures hasNormal && vertexCount > 0 ==>
        var c := CornersOf(t);
        normals[..] == old(normals[..])[c.c1 := n1][c.c2 := n2][c.c3 := n3]
      ensures hasNormal && vertexCount > 0 && DistinctCorners(CornersOf(t)) ==>
        GetNormal(t, (Zero3, Zero3, Zero3)) == (n1, n2, n3)
    {
      if !hasNormal || vertexCount == 0 {
        return;
      }
      var c := CornersOf(t);
      normals[c.c1] := n1;
      normals[c.c2] := n2;
      normals[c.c3] := n3;
    }

    /** `setUV`: writes the corner texcoords of triangle `t` in set `uvIndex` when that set is accessible. */
    method SetUV(uvIndex: nat, t: nat, uv1: Vec2, uv2: Vec2, uv3: Vec2)
      requires Valid() && IndexesInRange() && t < TriangleCount()
      modifies texcoords
      ensures !UVAccessible(uvIndex) ==> texcoords == null || texcoords[..] == old(texcoords[..])
      ensures UVAccessible(uvIndex) ==>
        var c := UVSlots(uvIndex, t);
        texcoords[..] == old(texcoords[..])[c.c1 := uv1][c.c2 := uv2][c.c3 := uv3]
      ensures UVAccessible(uvIndex) && DistinctCorners(CornersOf(t)) ==>
        GetUV(uvIndex, t, (Zero2, Zero2, Zero2)) == (uv1, uv2, uv3)
    {
      if !hasTexcoord || vertexCount == 0 || uvIndex >= uvCount {
        return;
      }
      var c := UVSlots(uvIndex, t);
      texcoords[c.c1] := uv1;
      texcoords[c.c2] := uv2;
      texcoords[c.c3] := uv3;
    }

    /**
     * `inversePolygonVertexOrder` as written: every triangle's last two corners
     * swap in the normal buffer and, with `applyTexcoord`, in every UV set; the
     * positions go through `setVertex`, which as written skips meshes without
     * texcoords, so those keep their positions while their normals are rewound.
     */
    method InversePolygonVertexOrder(applyTexcoord: bool)
      requires Valid() && IndexesInRange()
      modifies vertices, normals, texcoords
      ensures hasTexcoord && vertices != null ==>
        vertices[..] == SwapAll(old(vertices[..]), AllCorners(TriangleCount()))
      ensures !hasTexcoord && vertices != null ==> vertices[..] == old(vertices[..])
      ensures hasNormal ==> normals[..] == SwapAll(old(normals[..]), AllCorners(TriangleCount()))
      ensures !hasNormal && normals != null ==> normals[..] == old(normals[..])
      ensures applyTexcoord && hasTexcoord ==>
        texcoords[..] == SwapAllInSets(old(texcoords[..]), vertexCount, uvCount, AllCorners(TriangleCount()))
      ensures !(applyTexcoord && hasTexcoord) && texcoords != null ==> texcoords[..] == old(texcoords[..])
    {
      var corners := AllCorners(TriangleCount());
      RewindTriangles(vertices, normals, texcoords, vertexCount, uvCount, corners,
                      hasTexcoord && vertices != null, hasNormal, applyTexcoord && hasTexcoord);
      assert AllCorners(TriangleCount()) == corners;
    }

    /** `inversePolygonVertexOrder` with the intended `setVertex`: positions are rewound like the normals. */
    method InversePolygonVertexOrderFixed(applyTexcoord: bool)
      requires Valid() && IndexesInRange()
      modifies vertices, normals, texcoords
      ensures vertices != null ==> vertices[..] == SwapAll(old(vertices[..]), AllCorners(TriangleCount()))
      ensures hasNormal ==> normals[..] == SwapAll(old(normals[..]), AllCorners(TriangleCount()))
      ensures !hasNormal && normals != null ==> normals[..] == old(normals[..])
      ensures applyTexcoord && hasTexcoord ==>
        texcoords[..] == SwapAllInSets(old(texcoords[..]), vertexCount, uvCount, AllCorners(TriangleCount()))
      ensures !(applyTexcoord && hasTexcoord) && texcoords != null ==> texcoords[..] == old(texcoords[..])
    {
      var corners := AllCorners(TriangleCount());
      RewindTriangles(vertices, normals, texcoords, vertexCount, uvCount, corners,
                      vertices != null, hasNormal, applyTexcoord && hasTexcoord);
      assert AllCorners(TriangleCount()) == corners;
    }

    /** `flipNormals`: negates every normal; a mesh without normals or vertices is left alone. */
    method FlipNormals()
      requires Valid()
      modifies normals
      ensures hasNormal ==> normals[..] == Negated(old(normals[..]))
      ensures !hasNormal && normals != null ==> normals[..] == old(normals[..])
    {
      if vertexCount == 0 || !hasNormal || normals == null {
        return;
      }
      var i := 0;
      while i < vertexCount
        invariant 0 <= i <= vertexCount
        invariant forall j :: 0 <= j < i ==> normals[j] == Neg(old(normals[j]))
        invariant forall j :: i <= j < vertexCount ==> normals[j] == old(normals[j])
      {
        normals[i] := Neg(normals[i]);
        i := i + 1;
      }
    }

    /** The buffer references, to say that an operation replaced none of them. */
    function Buffers(): (array?<Vec3>, array?<Vec3>, array?<Vec2>, array?<Vec3>, array?<Vec3>, array?<U16>, array?<Color3>)
      reads this
    {
      (vertices, normals, texcoords, tangents, bitangents, indexes, colors)
    }

    /** The expanded position and normal buffers of `extractIndex`; the normals are kept as they are without `hasNormal`. */
    method ExpandVectors() returns (newVertices: array<Vec3>, newNormals: array?<Vec3>)
      requires Valid() && IndexesInRange() && indexCount > 0
      ensures fresh(newVertices) && newVertices[..] == Gather(vertices[..], indexes[..])
      ensures hasNormal ==> fresh(newNormals) && newNormals != null && newNormals[..] == Gather(normals[..], indexes[..])
      ensures !hasNormal ==> newNormals == normals
      ensures newNormals != newVertices
    {
      newVertices := GatherInto(vertices, indexes, indexCount);
      newNormals := GatherIf(hasNormal, normals, indexes, indexCount);
    }

    /** The expanded tangent and bitangent buffers of `extractIndex`, distinct from the new position and normal buffers. */
    method ExpandTangents(newVertices: array<Vec3>, newNormals: array?<Vec3>) returns (newTangents: array?<Vec3>, newBitangents: array?<Vec3>)
      requires Valid() && IndexesInRange() && indexCount > 0
      requires newNormals != null ==> newNormals != newVertices
      ensures hasTangentSpaceBasis ==>
        newTangents != null && newBitangents != null && fresh(newTangents) && fresh(newBitangents)
        && newTangents[..] == Gather(tangents[..], indexes[..])
        && newBitangents[..] == Gather(bitangents[..], indexes[..])
        && newTangents != newBitangents
        && newTangents != newVertices && newBitangents != newVertices
        && newTangents != newNormals && newBitangents != newNormals
      ensures !hasTangentSpaceBasis ==> newTangents == tangents && newBitangents == bitangents
    {
      newTangents := GatherIf(hasTangentSpaceBasis, tangents, indexes, indexCount);
      newBitangents := GatherIf(hasTangentSpaceBasis, bitangents, indexes, indexCount);
    }

    /** The expanded colour and texcoord buffers of `extractIndex`; absent ones are kept as they are. */
    method ExpandAttributes() returns (newTexcoords: array?<Vec2>, newColors: array?<Color3>)
      requires Valid() && IndexesInRange() && indexCount > 0
      ensures hasTexcoord ==>
        newTexcoords != null && fresh(newTexcoords)
        && newTexcoords[..] == GatherSets(texcoords[..], vertexCount, uvCount, indexes[..])
      ensures !hasTexcoord ==> newTexcoords == texcoords
      ensures hasColor ==> newColors != null && fresh(newColors) && newColors[..] == Gather(colors[..], indexes[..])
      ensures !hasColor ==> newColors == colors
    {
      assert indexes[..indexCount] == indexes[..];
      newColors := GatherIf(hasColor, colors, indexes, indexCount);
      newTexcoords := GatherSetsIf(hasTexcoord, texcoords, vertexCount, uvCount, indexes, indexCount);
    }

    /** All buffers of `extractIndex`, expanded through the index buffer where their flag is set. */
    method ExpandBuffers()
      returns (newVertices: array<Vec3>, newNormals: array?<Vec3>, newTexcoords: array?<Vec2>,
               newTangents: array?<Vec3>, newBitangents: array?<Vec3>, newColors: array?<Color3>)
      requires Valid() && IndexesInRange() && indexCount > 0
      ensures newVertices.Length == indexCount && newVertices[..] == Gather(vertices[..], indexes[..])
      ensures newNormals != null ==> newNormals != newVertices
      ensures hasNormal ==>
        newNormals != null && newNormals.Length == indexCount && newNormals[..] == Gather(normals[..], indexes[..])
      ensures !hasNormal ==> newNormals == normals
      ensures hasTexcoord ==>
        newTexcoords != null && newTexcoords.Length == indexCount * uvCount
        && newTexcoords[..] == GatherSets(texcoords[..], vertexCount, uvCount, indexes[..])
      ensures !hasTexcoord ==> newTexcoords == texcoords
      ensures hasTangentSpaceBasis ==>
        newTangents != null && newBitangents != null
        && newTangents.Length == indexCount && newBitangents.Length == indexCount
        && newTangents[..] == Gather(tangents[..], indexes[..])
        && newBitangents[..] == Gather(bitangents[..], indexes[..])
        && newTangents != newBitangents
        && newTangents != newVertices && newBitangents != newVertices
        && newTangents != newNormals && newBitangents != newNormals
      ensures hasColor ==>
        newColors != null && newColors.Length == indexCount && newColors[..] == Gather(colors[..], indexes[..])
    {
      newVertices, newNormals := ExpandVectors();
      newTangents, newBitangents := ExpandTangents(newVertices, newNormals);
      newTexcoords, newColors := ExpandAttributes();
    }

    /**
     * `extractIndex`: turns an indexed mesh into an unindexed one. Entry `i` of
     * every present buffer (and of every UV set) becomes the old entry
     * `indexes[i]`, the vertex count becomes the old index count, and the index
     * buffer is dropped. A mesh without an index buffer is left alone.
     */
    method ExtractIndex()
      requires Valid() && IndexesInRange()
      modifies this
      ensures Valid() && Description() == old(Description()) && uvCount == old(uvCount)
      ensures old(indexCount) == 0 ==>
        vertexCount == old(vertexCount) && indexCount == 0 && Buffers() == old(Buffers())
      ensures old(indexCount) > 0 ==>
        indexCount == 0 && indexes == null && vertexCount == old(indexCount)
        && IndexesBelow(old(indexes[..]), old(vertexCount))
        && vertices[..] == Gather(old(vertices[..]), old(indexes[..]))
      ensures old(indexCount) > 0 && hasNormal ==> normals[..] == Gather(old(normals[..]), old(indexes[..]))
      ensures old(indexCount) > 0 && hasTexcoord ==>
        texcoords[..] == GatherSets(old(texcoords[..]), old(vertexCount), uvCount, old(indexes[..]))
      ensures old(indexCount) > 0 && hasTangentSpaceBasis ==>
        tangents[..] == Gather(old(tangents[..]), old(indexes[..]))
        && bitangents[..] == Gather(old(bitangents[..]), old(indexes[..]))
      ensures old(indexCount) > 0 && hasColor ==> colors[..] == Gather(old(colors[..]), old(indexes[..]))
    {
      if indexCount == 0 || indexes == null {
        return;
      }
      var newVertices, newNormals, newTexcoords, newTangents, newBitangents, newColors := ExpandBuffers();
      InstallExpanded(newVertices, newNormals, newTexcoords, newTangents, newBitangents, newColors);
    }

    /** The last steps of `extractIndex`: the expanded buffers replace the old ones and the index buffer goes. */
    method InstallExpanded(newVertices: array<Vec3>, newNormals: array?<Vec3>, newTexcoords: array?<Vec2>,
                           newTangents: array?<Vec3>, newBitangents: array?<Vec3>, newColors: array?<Color3>)
      requires newVertices.Length == indexCount && (newNormals != null ==> newNormals != newVertices)
      requires hasNormal ==> newNormals != null && newNormals.Length == indexCount
      requires hasTexcoord ==> newTexcoords != null && newTexcoords.Length == indexCount * uvCount
      requires hasTangentSpaceBasis ==>
        newTangents != null && newBitangents != null
        && newTangents.Length == indexCount && newBitangents.Length == indexCount
        && newTangents != newBitangents
        && newTangents != newVertices && newBitangents != newVertices
        && newTangents != newNormals && newBitangents != newNormals
      requires hasColor ==> newColors != null && newColors.Length == indexCount
      modifies this
      ensures Valid() && Description() == old(Description()) && uvCount == old(uvCount)
      ensures vertexCount == old(indexCount) && indexCount == 0 && indexes == null
      ensures Buffers() == (newVertices, newNormals, newTexcoords, newTangents, newBitangents, null, newColors)
    {
      InstallVectors(indexCount, newVertices, newNormals, newTangents, newBitangents);
      InstallAttributes(newTexcoords, newColors, null, 0);
    }

    method InstallVectors(count: nat, newVertices: array<Vec3>, newNormals: array?<Vec3>,
                          newTangents: array?<Vec3>, newBitangents: array?<Vec3>)
      requires newVertices.Length == count && (newNormals != null ==> newNormals != newVertices)
      requires hasNormal ==> newNormals != null && newNormals.Length == count
      requires hasTangentSpaceBasis ==>
        newTangents != null && newBitangents != null
        && newTangents.Length == count && newBitangents.Length == count
        && newTangents != newBitangents
        && newTangents != newVertices && newBitangents != newVertices
        && newTangents != newNormals && newBitangents != newNormals
      modifies this
      ensures PositionsValid() && NormalsValid() && TangentsValid()
      ensures Description() == old(Description()) && uvCount == old(uvCount)
      ensures vertexCount == count && indexCount == old(indexCount)
      ensures Buffers() == (newVertices, newNormals, old(texcoords), newTangents, newBitangents, old(indexes), old(colors))
    {
      vertexCount, vertices, normals := count, newVertices, newNormals;
      tangents, bitangents := newTangents, newBitangents;
    }

    method InstallAttributes(newTexcoords: array?<Vec2>, newColors: array?<Color3>, newIndexes: array?<U16>, newIndexCount: nat)
      requires PositionsValid() && NormalsValid() && TangentsValid()
      requires hasTexcoord ==> newTexcoords != null && newTexcoords.Length == vertexCount * uvCount
      requires hasColor ==> newColors != null && newColors.Length >= vertexCount
      requires newIndexCount > 0 ==> newIndexes != null && newIndexes.Length == newIndexCount
      modifies this
      ensures Valid() && Description() == old(Description()) && uvCount == old(uvCount)
      ensures vertexCount == old(vertexCount) && indexCount == newIndexCount
      ensures Buffers() == (old(vertices), old(normals), newTexcoords, old(tangents), old(bitangents), newIndexes, newColors)
    {
      texcoords, colors := newTexcoords, newColors;
      indexes, indexCount := newIndexes, newIndexCount;
    }

    /** The vertex key `composeIndex` compares at vertex `i`: attributes the mesh lacks are zero. */
    function KeyAt(i: nat): VertexKey
      reads this, vertices, normals, texcoords, tangents, bitangents
      requires Valid() && i < vertexCount && (hasTexcoord ==> uvCount >= 1)
    {
      assert hasTexcoord ==> vertexCount * 1 <= vertexCount * uvCount by {
        if hasTexcoord { MulMonotone(vertexCount, 1, uvCount); }
      }
      assert hasTexcoord && uvCount > 1 ==> vertexCount * 2 <= vertexCount * uvCount by {
        if hasTexcoord && uvCount > 1 { MulMonotone(vertexCount, 2, uvCount); }
      }
      VertexKey(
        vertices[i],
        if hasNormal then normals[i] else Zero3,
        if hasTexcoord then texcoords[i] else Zero2,
        if hasTexcoord && uvCount > 1 then texcoords[vertexCount + i] else Zero2,
        if hasTangentSpaceBasis then tangents[i] else Zero3,
        if hasTangentSpaceBasis then bitangents[i] else Zero3)
    }

    /** The keys of all vertices, in order. */
    function Keys(): (r: seq<VertexKey>)
      reads this, vertices, normals, texcoords, tangents, bitangents
      requires Valid() && (hasTexcoord ==> uvCount >= 1)
      ensures |r| == vertexCount
    {
      seq(vertexCount, i requires 0 <= i < vertexCount reads this, vertices, normals, texcoords, tangents, bitangents
                         requires Valid() && (hasTexcoord ==> uvCount >= 1) => KeyAt(i))
    }

    /**
     * The keys hold every attribute `composeIndex` keeps: the positions, and by
     * flag the normals, the first two UV sets and the tangent-space basis.
     */
    lemma KeysAgree()
      requires Valid() && (hasTexcoord ==> uvCount >= 1)
      ensures vertices != null ==> Project(Keys(), Position) == vertices[..]
      ensures hasNormal ==> Project(Keys(), Normal) == normals[..]
      ensures hasTexcoord ==> vertexCount <= texcoords.Length && Project(Keys(), FirstUV) == texcoords[..vertexCount]
      ensures hasTexcoord && uvCount > 1 ==>
        2 * vertexCount <= texcoords.Length && Project(Keys(), SecondUV) == texcoords[vertexCount..2 * vertexCount]
      ensures hasTangentSpaceBasis ==>
        Project(Keys(), Tangent) == tangents[..] && Project(Keys(), Bitangent) == bitangents[..]
    {
      if hasTexcoord {
        MulMonotone(vertexCount, 1, uvCount);
      }
      if hasTexcoord && uvCount > 1 {
        MulMonotone(vertexCount, 2, uvCount);
      }
    }

    /** `composeIndex` applies: the mesh has vertices and no index buffer yet. */
    predicate Composable()
      reads this
    {
      indexCount == 0 && indexes == null && vertexCount > 0
    }

    /**
     * The state `composeIndex` leaves: one vertex per distinct key in order of
     * first occurrence, an index per old vertex leading to its key (truncated to
     * 16 bits), and buffers rebuilt from the distinct keys, the ones whose flag
     * is off dropped. Only the first two UV sets are written.
     */
    predicate ComposedFrom(keys: seq<VertexKey>)
      reads this, vertices, normals, texcoords, tangents, bitangents, indexes
    {
      var d := Dedup(keys);
      indexCount == |keys| && Holds(true, indexes, Project(d.1, ToU16))
      && vertexCount == |d.0| && Holds(true, vertices, Project(d.0, Position))
      && Holds(hasNormal, normals, Project(d.0, Normal))
      && HoldsUVs(hasTexcoord, texcoords, uvCount, Project(d.0, FirstUV), Project(d.0, SecondUV))
      && Holds(hasTangentSpaceBasis, tangents, Project(d.0, Tangent))
      && Holds(hasTangentSpaceBasis, bitangents, Project(d.0, Bitangent))
    }

    /**
     * `composeIndex`: turns an unindexed mesh into an indexed one by merging
     * vertices whose keys are equal. A mesh that already has an index buffer, or
     * has no vertices, is left alone. The colour buffer is kept as it is.
     */
    method ComposeIndex()
      requires Valid() && (hasTexcoord ==> uvCount >= 1)
      modifies this
      ensures Valid() && Description() == old(Description()) && uvCount == old(uvCount) && colors == old(colors)
      ensures !old(Composable()) ==>
        vertexCount == old(vertexCount) && indexCount == old(indexCount) && Buffers() == old(Buffers())
      ensures old(Composable()) ==> ComposedFrom(old(Keys()))
    {
      if indexCount > 0 || indexes != null || vertexCount == 0 {
        return;
      }
      var keys := Keys();
      var distinct, idx := ComposeKeys(keys);
      var newVertices, newNormals, newTangents, newBitangents := ComposedVectors(distinct, hasNormal, hasTangentSpaceBasis);
      var newTexcoords := ComposedTexcoords(hasTexcoord, distinct, uvCount);
      InstallVectors(|distinct|, newVertices, newNormals, newTangents, newBitangents);
      InstallAttributes(newTexcoords, colors, idx, |keys|);
    }

    /** The counts, the buffer-presence flags and the buffers. */
    function Shape(): (nat, nat, nat, bool, bool, bool, bool,
                       (array?<Vec3>, array?<Vec3>, array?<Vec2>, array?<Vec3>, array?<Vec3>, array?<U16>, array?<Color3>))
      reads this
    {
      (vertexCount, uvCount, indexCount, hasNormal, hasTexcoord, hasTangentSpaceBasis, hasColor, Buffers())
    }

    /** Edges, grab boundary, maps and trunk ids: what no buffer operation touches. */
    function Attachments(): (bool, bool, bool, nat, array?<Edge>, GrabBoundary, (nat, nat, nat, Option<TextureRef>, Option<TextureRef>))
      reads this
    {
      (hasLightmap, hasRefmap, hasGrabBoundary, edgeCount, edges, grabBoundary,
       (trunkUid, lightmapTrunkUid, refmapTrunkUid, lightmap, refmap))
    }

    /**
     * `calcBoundingBox`: the tight box of the vertices, stored and flagged. An
     * empty mesh gives the default box and keeps its stored box and flag.
     */
    method CalcBoundingBox() returns (b: BoundingBox)
      requires Valid()
      modifies this
      ensures Valid() && Shape() == old(Shape()) && Attachments() == old(Attachments())
      ensures vertexCount == 0 ==> b == DefaultBox && bbox == old(bbox) && hasBoundingBox == old(hasBoundingBox)
      ensures vertexCount > 0 ==> vertices != null && TightBox(b, vertices[..]) && bbox == b && hasBoundingBox
    {
      if vertexCount == 0 {
        return DefaultBox;
      }
      b := BoxOf(vertices, vertexCount);
      assert vertices[..vertexCount] == vertices[..];
      bbox, hasBoundingBox := b, true;
    }

    /** `getBoundingBox`: the stored box, computed first when none is stored. */
    method GetBoundingBox() returns (b: BoundingBox)
      requires Valid()
      modifies this
      ensures Valid() && Shape() == old(Shape()) && Attachments() == old(Attachments())
      ensures old(hasBoundingBox) ==> b == old(bbox) && bbox == old(bbox) && hasBoundingBox
      ensures !old(hasBoundingBox) && vertexCount > 0 ==> vertices != null && TightBox(b, vertices[..]) && hasBoundingBox
      ensures !old(hasBoundingBox) && vertexCount == 0 ==> b == old(bbox) && !hasBoundingBox
      ensures b == bbox
    {
      if !hasBoundingBox {
        var _ := CalcBoundingBox();
      }
      b := bbox;
    }

    /**
     * `appendUVBuffer`: throws when `newCount` is zero. Otherwise it grows the
     * texcoord buffer by `newCount` zeroed UV sets, keeping the existing sets,
     * flags the mesh as having texcoords and returns the offset of the first
     * new set (`getUVBuffer(uvCount - newCount)`).
     */
    method AppendUVBuffer(newCount: nat) returns (r: Result<nat>)
      requires Valid() && (texcoords != null ==> vertexCount * uvCount <= texcoords.Length)
      modifies this
      ensures Valid() && Attachments() == old(Attachments()) && bbox == old(bbox) && hasBoundingBox == old(hasBoundingBox)
      ensures vertexCount == old(vertexCount) && indexCount == old(indexCount)
      ensures hasNormal == old(hasNormal) && hasTangentSpaceBasis == old(hasTangentSpaceBasis) && hasColor == old(hasColor)
      ensures (vertices, normals, tangents, bitangents, indexes, colors)
           == old((vertices, normals, tangents, bitangents, indexes, colors))
      ensures r.Failure? <==> newCount == 0
      ensures newCount == 0 ==> uvCount == old(uvCount) && hasTexcoord == old(hasTexcoord) && texcoords == old(texcoords)
      ensures newCount > 0 ==>
        r == Success(vertexCount * old(uvCount)) && uvCount == old(uvCount) + newCount && hasTexcoord
        && texcoords != null && fresh(texcoords) && texcoords.Length == vertexCount * uvCount
        && vertexCount * old(uvCount) <= texcoords.Length
        && (forall i :: vertexCount * old(uvCount) <= i < texcoords.Length ==> texcoords[i] == Zero2)
        && (old(texcoords) != null ==>
              texcoords[..vertexCount * old(uvCount)] == old(texcoords[..vertexCount * uvCount]))
        && (old(texcoords) == null ==> forall i :: 0 <= i < vertexCount * old(uvCount) ==> texcoords[i] == Zero2)
    {
      if newCount == 0 {
        return Failure("newCount must be larger than 0");
      }
      var keep := vertexCount * uvCount;
      MulMonotone(vertexCount, uvCount, uvCount + newCount);
      var grown := GrownUVBuffer(texcoords, keep, vertexCount * (uvCount + newCount));
      texcoords, uvCount, hasTexcoord := grown, uvCount + newCount, true;
      r := Success(keep);
    }

    /** `hasUVBuffer(index)`: the comparison of the unsigned set count with the signed index converted to unsigned. */
    function HasUVBuffer(index: int): (r: bool)
      reads this
      requires uvCount < U32Range && -(I32Half as int) <= index < I32Half as int
      ensures r <==> (0 <= index < uvCount) || (index < 0 && index + U32Range < uvCount)
      ensures uvCount <= I32Half ==> (r <==> 0 <= index < uvCount)
    {
      uvCount > ToU32(index)
    }

    /** `getUVBuffer(index)`: the offset of UV set `index`, whose `vertexCount` entries lie inside the buffer. */
    function UVBufferOffset(index: nat): (r: nat)
      reads this
      ensures index < uvCount ==> r + vertexCount <= vertexCount * uvCount
    {
      if index < uvCount then BlockInside(vertexCount, index, uvCount); vertexCount * index
      else vertexCount * index
    }

    /** `setLightmap`: stores the map and flags it exactly when there is one. */
    method SetLightmap(texture: Option<TextureRef>)
      requires Valid()
      modifies this
      ensures Valid() && Shape() == old(Shape()) && bbox == old(bbox) && hasBoundingBox == old(hasBoundingBox)
      ensures lightmap == texture && (hasLightmap <==> texture.Some?)
      ensures (hasRefmap, refmap, edges, edgeCount, hasGrabBoundary, grabBoundary, trunkUid, lightmapTrunkUid, refmapTrunkUid)
           == old((hasRefmap, refmap, edges, edgeCount, hasGrabBoundary, grabBoundary, trunkUid, lightmapTrunkUid, refmapTrunkUid))
    {
      lightmap := texture;
      hasLightmap := texture.Some?;
    }

    /** `setRefmap`: stores the cube map and flags it exactly when there is one. */
    method SetRefmap(cubeMap: Option<TextureRef>)
      requires Valid()
      modifies this
      ensures Valid() && Shape() == old(Shape()) && bbox == old(bbox) && hasBoundingBox == old(hasBoundingBox)
      ensures refmap == cubeMap && (hasRefmap <==> cubeMap.Some?)
      ensures (hasLightmap, lightmap, edges, edgeCount, hasGrabBoundary, grabBoundary, trunkUid, lightmapTrunkUid, refmapTrunkUid)
           == old((hasLightmap, lightmap, edges, edgeCount, hasGrabBoundary, grabBoundary, trunkUid, lightmapTrunkUid, refmapTrunkUid))
    {
      refmap := cubeMap;
      hasRefmap := cubeMap.Some?;
    }

    /** The corner positions of the first `n` triangles, in order. */
    function TrianglesUpTo(n: nat): (r: seq<(Vec3, Vec3, Vec3)>)
      reads this, indexes, vertices
      requires Valid() && IndexesInRange() && n <= TriangleCount()
      ensures |r| == n && forall t :: 0 <= t < n ==> r[t] == GetVertex(t)
    {
      if n == 0 then [] else TrianglesUpTo(n - 1) + [GetVertex(n - 1)]
    }

    /**
     * `getDistinctEdges`: offers the edges (v1,v2), (v2,v3), (v1,v3) of every
     * triangle in turn, appending each one that has no `almostSame` entry yet.
     */
    method GetDistinctEdges(edges: seq<Edge>) returns (r: seq<Edge>)
      requires Valid() && IndexesInRange()
      ensures r == DistinctEdges(edges, TrianglesUpTo(TriangleCount()))
    {
      r := AddDistinctEdges(edges, TrianglesUpTo(TriangleCount()));
    }

    /**
     * The round trip of `composeIndex` and `extractIndex`: expanding a composed
     * mesh through its index buffer gives back, for every old vertex, the
     * attributes its key holds, as long as at most 65536 keys are distinct.
     */
    lemma ComposedExpandsBack(keys: seq<VertexKey>)
      requires ComposedFrom(keys) && |Dedup(keys).0| <= U16Range
      ensures indexes != null && vertices != null && IndexesBelow(indexes[..], vertexCount)
      ensures Gather(vertices[..], indexes[..]) == Project(keys, Position)
      ensures hasNormal ==> normals != null && Gather(normals[..], indexes[..]) == Project(keys, Normal)
      ensures hasTexcoord ==>
        texcoords != null && vertexCount <= texcoords.Length
        && Gather(texcoords[..vertexCount], indexes[..]) == Project(keys, FirstUV)
      ensures hasTexcoord && uvCount > 1 ==>
        texcoords != null && 2 * vertexCount <= texcoords.Length
        && Gather(texcoords[vertexCount..2 * vertexCount], indexes[..]) == Project(keys, SecondUV)
      ensures hasTangentSpaceBasis ==>
        tangents != null && bitangents != null
        && Gather(tangents[..], indexes[..]) == Project(keys, Tangent)
        && Gather(bitangents[..], indexes[..]) == Project(keys, Bitangent)
    {
      ComposeExpandRoundTrip(keys, Position);
      ComposeExpandRoundTrip(keys, Normal);
      ComposeExpandRoundTrip(keys, FirstUV);
      ComposeExpandRoundTrip(keys, SecondUV);
      ComposeExpandRoundTrip(keys, Tangent);
      ComposeExpandRoundTrip(keys, Bitangent);
    }

    /**
     * With the intended `setVertex`, `inversePolygonVertexOrder` is an
     * involution on an unindexed mesh: rewinding every buffer (and every UV set)
     * twice gives it back.
     */
    lemma RewindTwiceRestores<T>(a: seq<T>, uvs: seq<T>)
      requires Valid() && IndexesInRange() && indexCount == 0 && 3 * TriangleCount() <= U16Range
      requires |a| >= vertexCount && |uvs| == vertexCount * uvCount
      ensures SwapAll(SwapAll(a, AllCorners(TriangleCount())), AllCorners(TriangleCount())) == a
      ensures SwapAllInSets(SwapAllInSets(uvs, vertexCount, uvCount, AllCorners(TriangleCount())),
                            vertexCount, uvCount, AllCorners(TriangleCount())) == uvs
    {
      var cs := AllCorners(TriangleCount());
      UnindexedCornersDisjoint(TriangleCount());
      assert cs == UnindexedCornerList(TriangleCount());
      SwapAllInvolution(a, cs);
      SwapAllInSetsInvolution(uvs, vertexCount, uvCount, cs);
    }
  }
}
