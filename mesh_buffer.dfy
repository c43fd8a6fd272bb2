// The mesh buffer: growing attribute lists that meshes are appended to, vertex
// by vertex, and that are turned back into one unindexed mesh. It keeps one
// list per UV set, so that meshes appended one after another contribute their
// set `k` to list `k`.
module MeshBuffers {
  import opened Base
  import opened MeshTypes
  import opened Meshes

  /** The lists of a buffer: positions, normals, one list per UV set, colours. */
  datatype Contents = Contents(vertices: seq<Vec3>, normals: seq<Vec3>, texcoords: seq<seq<Vec2>>, colors: seq<Color3>)

  const NoContents: Contents := Contents([], [], [], [])

  /** The flat buffers of a mesh: positions, normals, its UV sets one after another, colours. */
  datatype Flat = Flat(vertices: seq<Vec3>, normals: seq<Vec3>, texcoords: seq<Vec2>, colors: seq<Color3>)

  function Layout(d: MeshData): Flat
  {
    Flat(d.vertices, d.normals, d.texcoords, d.colors)
  }

  /** `lists` with empty lists added until there are `n`. */
  function PadSets(lists: seq<seq<Vec2>>, n: nat): (r: seq<seq<Vec2>>)
    ensures |r| == (if |lists| < n then n else |lists|)
    ensures forall k :: 0 <= k < |r| ==> r[k] == (if k < |lists| then lists[k] else [])
  {
    if |lists| < n then lists + seq(n - |lists|, _ => []) else lists
  }

  /** Entry `i` of UV set `k` of a buffer of `sets` sets of `n` entries. */
  function Entry(buf: seq<Vec2>, n: nat, sets: nat, k: nat, i: nat): Vec2
    requires k < sets && i < n && n * sets <= |buf|
  {
    assert n * k + i < n * sets by { BlockBound(n, k, i, sets); }
    buf[n * k + i]
  }

  /** The first `m` entries of UV set `k` of a buffer of `sets` sets of `n` entries. */
  function SetPrefix(buf: seq<Vec2>, n: nat, sets: nat, k: nat, m: nat): (r: seq<Vec2>)
    requires k < sets && m <= n && n * sets <= |buf|
    ensures |r| == m
  {
    assert n * k + n <= n * sets by { BlockInside(n, k, sets); }
    buf[n * k .. n * k + m]
  }

  /**
   * The UV lists after the first `m` vertices of a mesh with `n` vertices and
   * `sets` UV sets (in `buf`) were pushed: padded to `sets` lists, and list
   * `k < sets` extended by the first `m` entries of set `k`.
   */
  function PushedSets(lists: seq<seq<Vec2>>, buf: seq<Vec2>, n: nat, sets: nat, m: nat): (r: seq<seq<Vec2>>)
    requires m <= n && n * sets <= |buf|
    ensures |r| == |PadSets(lists, sets)|
  {
    var p := PadSets(lists, sets);
    seq(|p|, k requires 0 <= k < |p| => if k < sets then p[k] + SetPrefix(buf, n, sets, k, m) else p[k])
  }

  /** The lists with entry `i` of each UV set pushed to its list. */
  function PushedColumn(lists: seq<seq<Vec2>>, buf: seq<Vec2>, n: nat, sets: nat, i: nat): (r: seq<seq<Vec2>>)
    requires sets <= |lists| && i < n && n * sets <= |buf|
    ensures |r| == |lists|
  {
    seq(|lists|, k requires 0 <= k < |lists| => if k < sets then lists[k] + [Entry(buf, n, sets, k, i)] else lists[k])
  }

  /**
   * What `appendMesh` makes of the lists: the mesh's vertices, and its normals
   * and colours when it has them, appended; its UV set `k` appended to list
   * `k`, the lists padded to the mesh's set count, when it has texcoords and
   * at least one vertex.
   */
  function Appended(c: Contents, d: MeshData): Contents
    requires Sized(d)
  {
    Contents(
      c.vertices + d.vertices,
      c.normals + d.normals,
      if d.hasTexcoord && d.vertexCount > 0
      then PushedSets(c.texcoords, d.texcoords, d.vertexCount, d.uvCount, d.vertexCount)
      else c.texcoords,
      c.colors + d.colors)
  }

  /** What `createMesh` reads: every nonempty list holds at least one entry per vertex. */
  predicate Copyable(c: Contents)
  {
    (|c.normals| > 0 ==> |c.normals| >= |c.vertices|)
    && (forall k :: 0 <= k < |c.texcoords| ==> |c.texcoords[k]| >= |c.vertices|)
    && (|c.colors| > 0 ==> |c.colors| >= |c.vertices|)
  }

  /** Every list holds exactly one entry per vertex; normals and colours may be absent altogether. */
  predicate Uniform(c: Contents)
  {
    (|c.normals| == 0 || |c.normals| == |c.vertices|)
    && (forall k :: 0 <= k < |c.texcoords| ==> |c.texcoords[k]| == |c.vertices|)
    && (|c.colors| == 0 || |c.colors| == |c.vertices|)
  }

  /** A mesh with the attributes the buffer already holds (or an empty buffer, or a mesh without vertices). */
  predicate Matches(c: Contents, d: MeshData)
  {
    d.vertexCount == 0 || c == NoContents
    || ((|c.normals| > 0 <==> d.hasNormal) && (|c.colors| > 0 <==> d.hasColor)
        && |c.texcoords| == (if d.hasTexcoord then d.uvCount else 0))
  }

  /** The lists one after another. */
  function Concat<T>(lists: seq<seq<T>>): (r: seq<T>)
  {
    if |lists| == 0 then [] else Concat(lists[..|lists| - 1]) + lists[|lists| - 1]
  }

  /** `s` cut to `n` entries, or left empty. */
  function Truncated<T>(s: seq<T>, n: nat): (r: seq<T>)
    requires |s| == 0 || n <= |s|
  {
    if |s| == 0 then [] else s[..n]
  }

  /** Each list cut to `n` entries. */
  function TruncatedSets(lists: seq<seq<Vec2>>, n: nat): (r: seq<seq<Vec2>>)
    requires forall k :: 0 <= k < |lists| ==> |lists[k]| >= n
    ensures |r| == |lists| && forall k :: 0 <= k < |r| ==> r[k] == lists[k][..n]
  {
    seq(|lists|, k requires 0 <= k < |lists| => lists[k][..n])
  }

  /**
   * What `createMesh` copies into the new mesh: the vertices, the first
   * `|vertices|` entries of the normals, of each UV list (one set after the
   * other) and of the colours.
   */
  function Flattened(c: Contents): Flat
    requires Copyable(c)
  {
    var n := |c.vertices|;
    Flat(c.vertices, Truncated(c.normals, n), Concat(TruncatedSets(c.texcoords, n)), Truncated(c.colors, n))
  }

  lemma {:induction false} ConcatLength<T>(lists: seq<seq<T>>, n: nat)
    requires forall k :: 0 <= k < |lists| ==> |lists[k]| == n
    ensures |Concat(lists)| == n * |lists|
  {
    if |lists| > 0 {
      ConcatLength(lists[..|lists| - 1], n);
      MulSucc(n, |lists| - 1);
    }
  }

  /** A buffer of `sets` blocks of `n` entries is the concatenation of its blocks. */
  lemma {:induction false} ConcatOfBlocks<T>(buf: seq<T>, n: nat, sets: nat, lists: seq<seq<T>>)
    requires |buf| == n * sets && |lists| == sets
    requires forall k :: 0 <= k < sets ==> n * k + n <= |buf| && lists[k] == buf[n * k .. n * k + n]
    ensures Concat(lists) == buf
  {
    if sets > 0 {
      var front := buf[..n * (sets - 1)];
      MulSucc(n, sets - 1);
      forall k | 0 <= k < sets - 1
        ensures n * k + n <= |front| && lists[..sets - 1][k] == front[n * k .. n * k + n]
      {
        BlockInside(n, k, sets - 1);
      }
      ConcatOfBlocks(front, n, sets - 1, lists[..sets - 1]);
      assert buf == front + buf[n * (sets - 1) ..];
    }
  }

  /** Appended lists stay uniform when the mesh matches the attributes already present. */
  lemma AppendKeepsUniform(c: Contents, d: MeshData)
    requires Sized(d) && Uniform(c) && Matches(c, d)
    ensures Uniform(Appended(c, d))
  {
    var r := Appended(c, d);
    if d.hasTexcoord && d.vertexCount > 0 {
      var p := PadSets(c.texcoords, d.uvCount);
      forall k | 0 <= k < |r.texcoords|
        ensures |r.texcoords[k]| == |r.vertices|
      {
        if c == NoContents {
          assert |p[k]| == 0;
        } else {
          assert |p[k]| == |c.vertices|;
        }
      }
    }
  }

  /**
   * A mesh with vertices appended to an empty buffer gives lists that
   * `createMesh` turns into the same normal, texcoord and colour flags, as long
   * as a mesh with texcoords has at least one UV set.
   */
  lemma AppendedMeshShape(d: MeshData)
    requires Sized(d) && d.vertexCount > 0 && (d.hasTexcoord ==> d.uvCount > 0)
    ensures Uniform(Appended(NoContents, d)) && Copyable(Appended(NoContents, d))
    ensures var c := Appended(NoContents, d);
      |c.vertices| == d.vertexCount
      && (|c.normals| > 0 <==> d.hasNormal) && (|c.colors| > 0 <==> d.hasColor)
      && (|c.texcoords| > 0 <==> d.hasTexcoord) && |c.texcoords| == (if d.hasTexcoord then d.uvCount else 0)
  {
    AppendKeepsUniform(NoContents, d);
  }

  /** ... and the buffers `createMesh` copies are the mesh's own. */
  lemma AppendedMeshRestored(d: MeshData)
    requires Sized(d) && d.vertexCount > 0 && (d.hasTexcoord ==> d.uvCount > 0)
    ensures Copyable(Appended(NoContents, d)) && Flattened(Appended(NoContents, d)) == Layout(d)
  {
    AppendedMeshShape(d);
    var c := Appended(NoContents, d);
    var n := d.vertexCount;
    if d.hasTexcoord {
      var lists := TruncatedSets(c.texcoords, n);
      forall k | 0 <= k < d.uvCount
        ensures n * k + n <= |d.texcoords| && lists[k] == d.texcoords[n * k .. n * k + n]
      {
        BlockInside(n, k, d.uvCount);
      }
      ConcatOfBlocks(d.texcoords, n, d.uvCount, lists);
    }
  }

  /** The lists after the first `m` vertices of the mesh were pushed. */
  function PartlyAppended(c: Contents, d: MeshData, m: nat): Contents
    requires Sized(d) && m <= d.vertexCount
  {
    Contents(
      c.vertices + d.vertices[..m],
      c.normals + d.normals[..if d.hasNormal then m else 0],
      if d.hasTexcoord && m > 0
      then PushedSets(c.texcoords, d.texcoords, d.vertexCount, d.uvCount, m)
      else c.texcoords,
      c.colors + d.colors[..if d.hasColor then m else 0])
  }

  /** The lists after vertex `i` of the mesh was pushed. */
  function VertexPushed(c: Contents, d: MeshData, i: nat): Contents
    requires Sized(d) && i < d.vertexCount
  {
    Contents(
      c.vertices + [d.vertices[i]],
      if d.hasNormal then c.normals + [d.normals[i]] else c.normals,
      if d.hasTexcoord
      then PushedColumn(PadSets(c.texcoords, d.uvCount), d.texcoords, d.vertexCount, d.uvCount, i)
      else c.texcoords,
      if d.hasColor then c.colors + [d.colors[i]] else c.colors)
  }

  /** Pushing vertex `i` after the first `i` vertices gives the first `i + 1`. */
  lemma PushVertexStep(c: Contents, d: MeshData, i: nat)
    requires Sized(d) && i < d.vertexCount
    ensures VertexPushed(PartlyAppended(c, d, i), d, i) == PartlyAppended(c, d, i + 1)
  {
    assert d.vertices[..i + 1] == d.vertices[..i] + [d.vertices[i]];
    if d.hasNormal {
      assert d.normals[..i + 1] == d.normals[..i] + [d.normals[i]];
    }
    if d.hasColor {
      assert d.colors[..i + 1] == d.colors[..i] + [d.colors[i]];
    }
    if d.hasTexcoord {
      var current := PartlyAppended(c, d, i).texcoords;
      PushStep(c.texcoords, current, d.texcoords, d.vertexCount, d.uvCount, i);
    }
  }

  lemma SetPrefixGrows(buf: seq<Vec2>, n: nat, sets: nat, k: nat, i: nat)
    requires k < sets && i < n && n * sets <= |buf|
    ensures SetPrefix(buf, n, sets, k, i + 1) == SetPrefix(buf, n, sets, k, i) + [Entry(buf, n, sets, k, i)]
  {
    BlockInside(n, k, sets);
    var a := n * k;
    assert buf[a .. a + i + 1] == buf[a .. a + i] + [buf[a + i]];
  }

  /** One vertex step of `appendMesh` on the UV lists: pad, then push entry `i` of every set. */
  lemma PushStep(lists: seq<seq<Vec2>>, current: seq<seq<Vec2>>, buf: seq<Vec2>, n: nat, sets: nat, i: nat)
    requires i < n && n * sets <= |buf|
    requires current == if i == 0 then lists else PushedSets(lists, buf, n, sets, i)
    ensures PushedColumn(PadSets(current, sets), buf, n, sets, i) == PushedSets(lists, buf, n, sets, i + 1)
  {
    var p := PadSets(lists, sets);
    var q := PadSets(current, sets);
    var r := PushedColumn(q, buf, n, sets, i);
    var e := PushedSets(lists, buf, n, sets, i + 1);
    forall k | 0 <= k < |e|
      ensures r[k] == e[k]
    {
      if k < sets {
        assert n * k + n <= n * sets by { BlockInside(n, k, sets); }
        assert q[k] == p[k] + SetPrefix(buf, n, sets, k, i);
        SetPrefixGrows(buf, n, sets, k, i);
      }
    }
  }

  /** Pads `lists` with empty lists up to `n` lists. */
  method PadTo(lists: seq<seq<Vec2>>, n: nat) returns (r: seq<seq<Vec2>>)
    ensures r == PadSets(lists, n)
  {
    r := lists;
    while |r| < n
      invariant r == lists + seq(|r| - |lists|, _ => [])
      invariant |r| <= n || r == lists
      decreases n - |r|
    {
      r := r + [[]];
    }
  }

  /** Pushes entry `i` of each of the `sets` UV sets in `buf` to its list. */
  method PushColumn(lists: seq<seq<Vec2>>, buf: array<Vec2>, n: nat, sets: nat, i: nat) returns (r: seq<seq<Vec2>>)
    requires sets <= |lists| && i < n && n * sets <= buf.Length
    ensures r == PushedColumn(lists, buf[..], n, sets, i)
  {
    r := lists;
    var k := 0;
    while k < sets
      invariant 0 <= k <= sets && |r| == |lists|
      invariant forall j :: 0 <= j < |r| ==> r[j] == if j < k then lists[j] + [Entry(buf[..], n, sets, j, i)] else lists[j]
    {
      BlockBound(n, k, i, sets);
      r := r[k := r[k] + [buf[n * k + i]]];
      k := k + 1;
    }
  }

  /** Copies the first `n` entries of each list into `dst`, one after another. */
  method CopySets(dst: array<Vec2>, lists: seq<seq<Vec2>>, n: nat)
    requires dst.Length == n * |lists| && forall k :: 0 <= k < |lists| ==> |lists[k]| >= n
    modifies dst
    ensures dst[..] == Concat(TruncatedSets(lists, n))
  {
    ghost var all := TruncatedSets(lists, n);
    var k := 0;
    while k < |lists|
      invariant 0 <= k <= |lists| && n * k <= dst.Length
      invariant dst[..n * k] == Concat(all[..k])
    {
      BlockInside(n, k, |lists|);
      MulSucc(n, k);
      CopyInto(dst, n * k, lists[k][..n]);
      assert all[..k + 1][..k] == all[..k];
      assert dst[..n * (k + 1)] == dst[..n * k] + lists[k][..n];
      k := k + 1;
    }
    assert all[..k] == all;
  }

  /** `m` has the counts and flags `createMesh` gives it for `c`: unindexed, one vertex per position, flags from the nonempty lists. */
  predicate ShapedFrom(m: Mesh, c: Contents)
    reads m
  {
    m.vertexCount == |c.vertices| && m.uvCount == |c.texcoords| && m.indexCount == 0
    && m.hasNormal == (|c.normals| > 0) && m.hasTexcoord == (|c.texcoords| > 0) && m.hasColor == (|c.colors| > 0)
    && !m.hasTangentSpaceBasis
  }

  /** `m`'s buffers hold what `createMesh` copies from `c`. */
  predicate CopiedFrom(m: Mesh, c: Contents)
    reads m, m.vertices, m.normals, m.texcoords, m.tangents, m.bitangents, m.indexes, m.colors, m.edges
    requires m.Valid() && Copyable(c)
  {
    Layout(m.Data()) == Flattened(c)
  }

  /** `m` carries the tight box of `c`'s positions, or no box when there are none. */
  predicate BoxedFrom(m: Mesh, c: Contents)
    reads m
  {
    (|c.vertices| > 0 ==> m.hasBoundingBox && TightBox(m.bbox, c.vertices))
    && (|c.vertices| == 0 ==> !m.hasBoundingBox)
  }

  /** The mesh `createMesh` allocates before copying: flags set, then `init`. */
  method AllocatedMesh(c: Contents) returns (m: Mesh)
    ensures fresh(m) && m.Valid() && ShapedFrom(m, c) && !m.hasBoundingBox
    ensures m.vertices != null && fresh(m.vertices)
    ensures (m.hasNormal ==> fresh(m.normals)) && (!m.hasNormal ==> m.normals == null)
    ensures (!m.hasTexcoord ==> m.texcoords == null) && (!m.hasColor ==> m.colors == null)
    ensures (m.hasTexcoord ==> fresh(m.texcoords)) && (m.hasColor ==> fresh(m.colors) && m.colors.Length == |c.vertices|)
  {
    m := new Mesh();
    m.hasNormal := |c.normals| > 0;
    m.hasTexcoord := |c.texcoords| > 0;
    m.hasColor := |c.colors| > 0;
    m.Init(|c.vertices|, |c.texcoords|, 0);
  }

  /** The copies of `createMesh`: positions, then normals, UV lists and colours when present. */
  method CopyContents(m: Mesh, c: Contents)
    requires m.Valid() && ShapedFrom(m, c) && Copyable(c) && m.vertices != null
    requires m.hasColor ==> m.colors.Length == |c.vertices|
    modifies m.vertices, m.normals, m.texcoords, m.colors
    ensures CopiedFrom(m, c)
  {
    CopyVectors(m, c);
    CopyAttributes(m, c);
  }

  method CopyVectors(m: Mesh, c: Contents)
    requires m.Valid() && ShapedFrom(m, c) && Copyable(c) && m.vertices != null
    modifies m.vertices, m.normals
    ensures m.vertices[..] == c.vertices && (m.hasNormal ==> m.normals[..] == c.normals[..|c.vertices|])
  {
    CopyInto(m.vertices, 0, c.vertices);
    if m.hasNormal {
      CopyInto(m.normals, 0, c.normals[..|c.vertices|]);
    }
  }

  method CopyAttributes(m: Mesh, c: Contents)
    requires m.Valid() && ShapedFrom(m, c) && Copyable(c)
    requires m.hasColor ==> m.colors.Length == |c.vertices|
    modifies m.texcoords, m.colors
    ensures m.hasTexcoord ==> m.texcoords[..] == Concat(TruncatedSets(c.texcoords, |c.vertices|))
    ensures m.hasColor ==> m.colors[..] == c.colors[..|c.vertices|]
  {
    if m.hasTexcoord {
      CopySets(m.texcoords, c.texcoords, |c.vertices|);
    }
    if m.hasColor {
      CopyInto(m.colors, 0, c.colors[..|c.vertices|]);
    }
  }

  class MeshBuffer {
    var vertices: seq<Vec3>
    var normals: seq<Vec3>
    var texcoords: seq<seq<Vec2>>
    var colors: seq<Color3>

    function Lists(): Contents
      reads this
    {
      Contents(vertices, normals, texcoords, colors)
    }

    constructor ()
      ensures Lists() == NoContents
    {
      vertices, normals, texcoords, colors := [], [], [], [];
    }

    /** `clear`: empties every list. */
    method Clear()
      modifies this
      ensures Lists() == NoContents
    {
      vertices, normals, texcoords, colors := [], [], [], [];
    }

    /**
     * `appendMesh`: vertex by vertex, pushes the position, the normal and the
     * colour when the mesh has them, and, when it has texcoords, pads the UV
     * lists to the mesh's set count and pushes the vertex's entry of every set.
     */
    method AppendMesh(mesh: Mesh)
      requires mesh.Valid()
      modifies this
      ensures Lists() == Appended(old(Lists()), mesh.Data())
    {
      ghost var d := mesh.Data();
      ghost var c := Lists();
      var i := 0;
      while i < mesh.vertexCount
        invariant 0 <= i <= mesh.vertexCount
        invariant Lists() == PartlyAppended(c, d, i)
      {
        PushVertex(mesh, i);
        PushVertexStep(c, d, i);
        i := i + 1;
      }
      assert d.vertices[..i] == d.vertices;
      assert d.normals[..if d.hasNormal then i else 0] == d.normals;
      assert d.colors[..if d.hasColor then i else 0] == d.colors;
    }

    /** The body of `appendMesh`'s loop for vertex `i`. */
    method PushVertex(mesh: Mesh, i: nat)
      requires mesh.Valid() && i < mesh.vertexCount
      modifies this
      ensures Lists() == VertexPushed(old(Lists()), mesh.Data(), i)
    {
      vertices := vertices + [mesh.vertices[i]];
      if mesh.hasNormal {
        normals := normals + [mesh.normals[i]];
      }
      if mesh.hasTexcoord {
        var padded := PadTo(texcoords, mesh.uvCount);
        texcoords := PushColumn(padded, mesh.texcoords, mesh.vertexCount, mesh.uvCount, i);
      }
      if mesh.hasColor {
        colors := colors + [mesh.colors[i]];
      }
    }

    /**
     * `createMesh`: a new unindexed mesh with one vertex per buffered position,
     * normal and colour buffers when those lists are nonempty, one UV set per
     * UV list, the lists' first `vertexCount` entries copied in, and its
     * bounding box computed.
     */
    method CreateMesh() returns (m: Mesh)
      requires Copyable(Lists())
      ensures fresh(m) && m.Valid() && ShapedFrom(m, Lists()) && CopiedFrom(m, Lists()) && BoxedFrom(m, Lists())
    {
      m := AllocatedMesh(Lists());
      CopyContents(m, Lists());
      var _ := m.CalcBoundingBox();
    }
  }
}
