// The binary mesh format: a header (format tag, version, flag bits, length),
// a metadata record, then the payload buffers in a fixed order. A stream is
// modelled as a sequence of cells, one per stored field or element: a 32-bit
// word, a bounding box, a grab boundary, a vector, a colour, an index or an
// edge; the header's version and flags, two 16-bit fields of one word, share a
// cell. Positions and the header's length field count cells. Reading a cell of
// another kind, or past the end, yields a fixed default value.
module MeshLoader {
  import opened Base
  import opened MeshTypes
  import opened Meshes

  const MeshTag: nat := 0x6873656d
  const LightmapTag: nat := 0x70616d6c
  const CurrentVersion: bv16 := 0x0105

  /**
   * The header's flag bits (`MeshFileHeaderFlags`); the 16-bit field is
   * modelled as the set of bits it has set, each named by its flag.
   */
  datatype HeaderFlag =
    | HasNormal           // 0x2; read as "has tangent basis" by versions before 0x0102
    | HasTexcoord         // 0x4
    | HasBoundingBox      // 0x8
    | HasTangentBasisData // 0x10
    | HasColor            // 0x20
    | HasLightmap         // 0x40
    | HasGrabBoundary     // 0x80
    | HasWireframe        // 0x100
    | HasRefmap           // 0x200

  /** `MLT_JPEG_IMAGE`, the lightmap type `save` records. */
  const LightmapJpeg: nat := 1

  /** Cells of the header and of the current (0x0104) metadata layout. */
  const HeaderCells: nat := 3
  const MetaCells: nat := 11
  /** The 0x0101 and 0x0102 layouts: five words and a bounding box. */
  const OldMetaCells: nat := 6

  datatype Cell =
    | Word(w: nat)
    | VersionFlags(ver: bv16, flags: set<HeaderFlag>)
    | Box(b: BoundingBox)
    | Grab(g: GrabBoundary)
    | V3(v: Vec3)
    | V2(u: Vec2)
    | C3(c: Color3)
    | Ix(i: U16)
    | Ed(e: Edge)

  datatype Header = Header(formatTag: nat, ver: bv16, flags: set<HeaderFlag>, length: nat)

  /** The 0x0104 metadata layout (`MeshFileMeta`). */
  datatype Meta = Meta(
    vertexCount: nat, uvCount: nat, indexCount: nat, edgeCount: nat, reserved2: nat,
    bbox: BoundingBox,
    lightmapTrunkId: nat, lightmapType: nat, refmapTrunkId: nat, reserved5: nat,
    grabBoundary: GrabBoundary)

  /** The 0x0101 metadata layout. */
  datatype Meta0101 = Meta0101(vertexCount: nat, normalCount: nat, uvCount: nat, texcoordCount: nat, indexCount: nat, bbox: BoundingBox)

  /** The header of files older than the tagged format. */
  datatype OldHeader = OldHeader(vertexCount: nat, normalCount: nat, texcoordCount: nat)

  // ---- reading cells ----

  function CellAt(s: seq<Cell>, p: nat): Cell
  {
    if p < |s| then s[p] else Word(0)
  }

  function AsWord(c: Cell): nat { if c.Word? then c.w else 0 }
  function AsVersionFlags(c: Cell): (bv16, set<HeaderFlag>) { if c.VersionFlags? then (c.ver, c.flags) else (0, {}) }
  function AsBox(c: Cell): BoundingBox { if c.Box? then c.b else DefaultBox }
  function AsGrab(c: Cell): GrabBoundary { if c.Grab? then c.g else NoGrab }
  function AsVec3(c: Cell): Vec3 { if c.V3? then c.v else Zero3 }
  function AsVec2(c: Cell): Vec2 { if c.V2? then c.u else Zero2 }
  function AsColor(c: Cell): Color3 { if c.C3? then c.c else Black }
  function AsIndex(c: Cell): U16 { if c.Ix? then c.i else 0 }
  function AsEdge(c: Cell): Edge { if c.Ed? then c.e else Edge(Zero3, Zero3) }

  function FromVec3(v: Vec3): Cell { V3(v) }
  function FromVec2(v: Vec2): Cell { V2(v) }
  function FromColor(c: Color3): Cell { C3(c) }
  function FromIndex(i: U16): Cell { Ix(i) }
  function FromEdge(e: Edge): Cell { Ed(e) }

  /** `n` cells from position `p`. */
  function CellsAt(s: seq<Cell>, p: nat, n: nat): (r: seq<Cell>)
    ensures |r| == n
  {
    seq(n, i requires 0 <= i => CellAt(s, p + i))
  }

  function Decoded<T>(dec: Cell -> T, cells: seq<Cell>): (r: seq<T>)
    ensures |r| == |cells|
  {
    seq(|cells|, i requires 0 <= i < |cells| => dec(cells[i]))
  }

  function Encoded<T>(enc: T -> Cell, xs: seq<T>): (r: seq<Cell>)
    ensures |r| == |xs|
  {
    seq(|xs|, i requires 0 <= i < |xs| => enc(xs[i]))
  }

  /** Decoding what was encoded gives the elements back. */
  lemma DecodeEncoded<T>(enc: T -> Cell, dec: Cell -> T, xs: seq<T>, s: seq<Cell>, p: nat)
    requires forall x :: dec(enc(x)) == x
    requires p + |xs| <= |s| && s[p .. p + |xs|] == Encoded(enc, xs)
    ensures Decoded(dec, CellsAt(s, p, |xs|)) == xs
  {
    var r := Decoded(dec, CellsAt(s, p, |xs|));
    forall i | 0 <= i < |xs|
      ensures r[i] == xs[i]
    {
      assert CellsAt(s, p, |xs|)[i] == CellAt(s, p + i);
      assert CellAt(s, p + i) == s[p + i];
      assert s[p .. p + |xs|][i] == s[p + i];
      assert Encoded(enc, xs)[i] == enc(xs[i]);
      assert r[i] == dec(enc(xs[i]));
    }
  }

  function HeaderAt(s: seq<Cell>, p: nat): Header
  {
    var vf := AsVersionFlags(CellAt(s, p + 1));
    Header(AsWord(CellAt(s, p)), vf.0, vf.1, AsWord(CellAt(s, p + 2)))
  }

  function OldHeaderAt(s: seq<Cell>, p: nat): OldHeader
  {
    OldHeader(AsWord(CellAt(s, p)), AsWord(CellAt(s, p + 1)), AsWord(CellAt(s, p + 2)))
  }

  function MetaAt(s: seq<Cell>, p: nat): Meta
  {
    Meta(
      AsWord(CellAt(s, p)), AsWord(CellAt(s, p + 1)), AsWord(CellAt(s, p + 2)), AsWord(CellAt(s, p + 3)), AsWord(CellAt(s, p + 4)),
      AsBox(CellAt(s, p + 5)),
      AsWord(CellAt(s, p + 6)), AsWord(CellAt(s, p + 7)), AsWord(CellAt(s, p + 8)), AsWord(CellAt(s, p + 9)),
      AsGrab(CellAt(s, p + 10)))
  }

  function Meta0101At(s: seq<Cell>, p: nat): Meta0101
  {
    Meta0101(AsWord(CellAt(s, p)), AsWord(CellAt(s, p + 1)), AsWord(CellAt(s, p + 2)), AsWord(CellAt(s, p + 3)),
             AsWord(CellAt(s, p + 4)), AsBox(CellAt(s, p + 5)))
  }

  /** The 0x0102 record copied over the first fields of `meta` (the `memcpy` of the loader). */
  function Meta0102Over(meta: Meta, s: seq<Cell>, p: nat): Meta
  {
    var m := MetaAt(s, p);
    meta.(vertexCount := m.vertexCount, uvCount := m.uvCount, indexCount := m.indexCount,
          edgeCount := m.edgeCount, reserved2 := m.reserved2, bbox := m.bbox)
  }

  // ---- writing cells ----

  function HeaderCellsOf(h: Header): (r: seq<Cell>)
    ensures |r| == HeaderCells
  {
    [Word(h.formatTag), VersionFlags(h.ver, h.flags), Word(h.length)]
  }

  function MetaCellsOf(m: Meta): (r: seq<Cell>)
    ensures |r| == MetaCells
  {
    [Word(m.vertexCount), Word(m.uvCount), Word(m.indexCount), Word(m.edgeCount), Word(m.reserved2),
     Box(m.bbox),
     Word(m.lightmapTrunkId), Word(m.lightmapType), Word(m.refmapTrunkId), Word(m.reserved5),
     Grab(m.grabBoundary)]
  }

  lemma HeaderRoundTrip(h: Header, s: seq<Cell>, p: nat)
    requires p + HeaderCells <= |s| && s[p .. p + HeaderCells] == HeaderCellsOf(h)
    ensures HeaderAt(s, p) == h
  {
    assert CellAt(s, p) == s[p .. p + HeaderCells][0];
    assert CellAt(s, p + 1) == s[p .. p + HeaderCells][1];
    assert CellAt(s, p + 2) == s[p .. p + HeaderCells][2];
  }

  lemma MetaRoundTrip(m: Meta, s: seq<Cell>, p: nat)
    requires p + MetaCells <= |s| && s[p .. p + MetaCells] == MetaCellsOf(m)
    ensures MetaAt(s, p) == m
  {
    forall i | 0 <= i < MetaCells
      ensures CellAt(s, p + i) == MetaCellsOf(m)[i]
    {
      assert s[p .. p + MetaCells][i] == s[p + i];
    }
  }

  // ---- the header `save` writes ----

  /** The mesh has a wireframe to store: a positive edge count and an edge buffer holding that many edges. */
  predicate Wireframe(d: MeshData)
  {
    d.edgeCount > 0 && d.edgeCount <= |d.edges|
  }

  /** Which of the fields `createMeshFileHeader` marks with a flag a mesh has. */
  datatype Features = Features(
    normal: bool, texcoord: bool, tangents: bool, box: bool,
    lightmap: bool, refmap: bool, color: bool, grab: bool, wireframe: bool)

  function FeaturesOf(d: MeshData): Features
  {
    Features(d.hasNormal, d.hasTexcoord, d.hasTangentSpaceBasis, d.hasBoundingBox,
             d.hasLightmap, d.hasRefmap, d.hasColor, d.hasGrabBoundary, Wireframe(d))
  }

  /** The flag `f` is due for features `x`. */
  predicate Present(x: Features, f: HeaderFlag)
  {
    match f
    case HasNormal => x.normal
    case HasTexcoord => x.texcoord
    case HasTangentBasisData => x.tangents
    case HasBoundingBox => x.box
    case HasLightmap => x.lightmap
    case HasRefmap => x.refmap
    case HasColor => x.color
    case HasGrabBoundary => x.grab
    case HasWireframe => x.wireframe
  }

  function FlagSet(x: Features): (r: set<HeaderFlag>)
    ensures forall f :: f in r <==> Present(x, f)
  {
    set f | f in {HasNormal, HasTexcoord, HasTangentBasisData, HasBoundingBox, HasLightmap, HasRefmap,
                  HasColor, HasGrabBoundary, HasWireframe} && Present(x, f)
  }

  /** The flag bits `createMeshFileHeader` sets: one per `has*` field set, wireframe when there are edges to store. */
  function FileFlags(d: MeshData): (f: set<HeaderFlag>)
    ensures (HasNormal in f) == d.hasNormal && (HasTexcoord in f) == d.hasTexcoord
    ensures (HasTangentBasisData in f) == d.hasTangentSpaceBasis && (HasBoundingBox in f) == d.hasBoundingBox
    ensures (HasLightmap in f) == d.hasLightmap && (HasRefmap in f) == d.hasRefmap
    ensures (HasColor in f) == d.hasColor && (HasGrabBoundary in f) == d.hasGrabBoundary
    ensures (HasWireframe in f) == Wireframe(d)
  {
    FlagSet(FeaturesOf(d))
  }

  /** The mesh fields `createMeshFileHeader` reads. */
  datatype Summary = Summary(
    features: Features, vertexCount: nat, uvCount: nat, indexCount: nat, edgeCount: nat,
    bbox: BoundingBox, grabBoundary: GrabBoundary, lightmapTrunkUid: nat, refmapTrunkUid: nat)

  function SummaryOf(d: MeshData): Summary
  {
    Summary(FeaturesOf(d), d.vertexCount, d.uvCount, d.indexCount, d.edgeCount,
            d.bbox, d.grabBoundary, d.lightmapTrunkUid, d.refmapTrunkUid)
  }

  /** The metadata filled in over `meta` from the summary: counts, then the fields of the features present. */
  function MetaFor(x: Summary, meta: Meta): Meta
  {
    var shaped := meta.(vertexCount := x.vertexCount, uvCount := x.uvCount, indexCount := x.indexCount,
                        bbox := if x.features.box then x.bbox else meta.bbox);
    shaped.(lightmapTrunkId := if x.features.lightmap then x.lightmapTrunkUid else shaped.lightmapTrunkId,
            lightmapType := if x.features.lightmap then LightmapJpeg else shaped.lightmapType,
            refmapTrunkId := if x.features.refmap then x.refmapTrunkUid else shaped.refmapTrunkId,
            grabBoundary := if x.features.grab then x.grabBoundary else shaped.grabBoundary,
            edgeCount := if x.features.wireframe then x.edgeCount else shaped.edgeCount)
  }

  /**
   * The metadata `createMeshFileHeader` fills in over `meta`: the counts always,
   * the box, lightmap, refmap, grab boundary and edge count only when present.
   */
  function FileMeta(d: MeshData, meta: Meta): (m: Meta)
    ensures m.vertexCount == d.vertexCount && m.uvCount == d.uvCount && m.indexCount == d.indexCount
    ensures m.bbox == (if d.hasBoundingBox then d.bbox else meta.bbox)
    ensures m.grabBoundary == (if d.hasGrabBoundary then d.grabBoundary else meta.grabBoundary)
    ensures m.edgeCount == (if Wireframe(d) then d.edgeCount else meta.edgeCount)
    ensures m.lightmapTrunkId == (if d.hasLightmap then d.lightmapTrunkUid else meta.lightmapTrunkId)
    ensures m.lightmapType == (if d.hasLightmap then LightmapJpeg else meta.lightmapType)
    ensures m.refmapTrunkId == (if d.hasRefmap then d.refmapTrunkUid else meta.refmapTrunkId)
    ensures m.reserved2 == meta.reserved2 && m.reserved5 == meta.reserved5
  {
    MetaFor(SummaryOf(d), meta)
  }

  /** The header `save` writes: mesh tag, current version, the flags, and the length of header and metadata. */
  function FileHeader(d: MeshData): Header
  {
    Header(MeshTag, CurrentVersion, FileFlags(d), HeaderCells + MetaCells)
  }

  /**
   * The buffers `save` writes after the metadata, one segment each, in file
   * order: positions (0), normals (1), UV sets (2), tangents (3), bitangents
   * (4), colours (5), indexes (6), edges (7); a segment is empty when its
   * buffer is not written.
   */
  function Segment(d: MeshData, k: nat): seq<Cell>
  {
    match k
    case 0 => Encoded(FromVec3, d.vertices)
    case 1 => if d.hasNormal then Encoded(FromVec3, d.normals) else []
    case 2 => if d.hasTexcoord then Encoded(FromVec2, d.texcoords) else []
    case 3 => if d.hasTangentSpaceBasis then Encoded(FromVec3, d.tangents) else []
    case 4 => if d.hasTangentSpaceBasis then Encoded(FromVec3, d.bitangents) else []
    case 5 => if d.hasColor then Encoded(FromColor, d.colors) else []
    case 6 => if d.indexCount > 0 then Encoded(FromIndex, d.indexes) else []
    case _ => if Wireframe(d) then Encoded(FromEdge, d.edges[..d.edgeCount]) else []
  }

  /** The first `k` segments, one after another. */
  function PayloadUpTo(d: MeshData, k: nat): seq<Cell>
  {
    if k == 0 then [] else PayloadUpTo(d, k - 1) + Segment(d, k - 1)
  }

  /** The payload: the eight segments one after another. */
  function PayloadCells(d: MeshData): seq<Cell>
  {
    PayloadUpTo(d, 8)
  }

  /** Everything `save` writes for a mesh, `meta` being the metadata record's initial (uninitialised) contents. */
  function Encode(d: MeshData, meta: Meta): seq<Cell>
  {
    HeaderCellsOf(FileHeader(d)) + MetaCellsOf(FileMeta(d, meta)) + PayloadCells(d)
  }

  // ---- what `load` reads ----

  /** The mesh fields `load` decodes from the header and metadata, and the counts it passes to `init`. */
  datatype Flags = Flags(
    hasNormal: bool, hasTexcoord: bool, hasTangentSpaceBasis: bool, hasBoundingBox: bool,
    hasColor: bool, hasGrabBoundary: bool, grabBoundary: GrabBoundary, edgeCount: nat)

  /** The decoded header: the metadata record, the flags, and where the payload starts. */
  datatype Layout = Layout(meta: Meta, flags: Flags, payload: nat)

  function FlagsOf(d: MeshData): Flags
  {
    Flags(d.hasNormal, d.hasTexcoord, d.hasTangentSpaceBasis, d.hasBoundingBox,
          d.hasColor, d.hasGrabBoundary, d.grabBoundary, d.edgeCount)
  }

  /**
   * The header and metadata as `load` decodes them from position `start`, over
   * the mesh's current flags `prior` and the uninitialised metadata `meta`:
   * a tagged file's version selects the metadata layout and which flags are
   * read, and the payload starts the header's length after `origin` (`load`
   * seeks to the length itself, that is, `origin` 0); any other file is
   * reread from `start` as a legacy header with one UV set and no indexes.
   */
  function LayoutOf(s: seq<Cell>, start: nat, prior: Flags, meta: Meta, origin: nat): Layout
  {
    var h := HeaderAt(s, start);
    if h.formatTag == MeshTag then
      if h.ver < 0x0102 then
        var m := Meta0101At(s, start + HeaderCells);
        Layout(meta.(vertexCount := m.vertexCount, uvCount := m.uvCount, indexCount := m.indexCount),
               prior.(hasNormal := m.normalCount > 0, hasTexcoord := m.texcoordCount > 0,
                      hasTangentSpaceBasis := HasNormal in h.flags),
               origin + h.length)
      else
        var m := if h.ver < 0x0103 then Meta0102Over(meta, s, start + HeaderCells) else MetaAt(s, start + HeaderCells);
        var f1 := prior.(hasNormal := HasNormal in h.flags, hasTexcoord := HasTexcoord in h.flags,
                         hasTangentSpaceBasis := HasTangentBasisData in h.flags,
                         hasBoundingBox := HasBoundingBox in h.flags);
        var f2 := if h.ver >= 0x0103 then f1.(hasColor := HasColor in h.flags) else f1;
        var f3 := if h.ver >= 0x0104 then f2.(hasGrabBoundary := HasGrabBoundary in h.flags, grabBoundary := m.grabBoundary) else f2;
        var f4 := if h.ver >= 0x0104 && HasWireframe in h.flags && m.edgeCount > 0 then f3.(edgeCount := m.edgeCount) else f3;
        Layout(m, f4, origin + h.length)
    else
      var legacy := OldHeaderAt(s, start);
      Layout(meta.(vertexCount := legacy.vertexCount, uvCount := 1, indexCount := 0), prior, start + HeaderCells)
  }

  /** The UV set count `load` passes to `init`: none without texcoords. */
  function LoadedUVCount(l: Layout): nat
  {
    if l.flags.hasTexcoord then l.meta.uvCount else 0
  }

  /** Where each payload buffer after the positions starts; the edges follow the indexes. */
  datatype Sections = Sections(normals: nat, texcoords: nat, tangents: nat, bitangents: nat, colors: nat, indexes: nat, edges: nat)

  /** The sections of the payload under layout `l`, which starts with the positions at `l.payload`. */
  function SectionsOf(l: Layout): (o: Sections)
    ensures o.normals == l.payload + l.meta.vertexCount
    ensures o.edges == o.indexes + l.meta.indexCount
  {
    var vc := l.meta.vertexCount;
    var f := l.flags;
    var normals := l.payload + vc;
    var texcoords := normals + (if f.hasNormal then vc else 0);
    var tangents := texcoords + (if f.hasTexcoord then vc * LoadedUVCount(l) else 0);
    var bitangents := tangents + (if f.hasTangentSpaceBasis then vc else 0);
    var colors := bitangents + (if f.hasTangentSpaceBasis then vc else 0);
    var indexes := colors + (if f.hasColor then vc else 0);
    Sections(normals, texcoords, tangents, bitangents, colors, indexes, indexes + l.meta.indexCount)
  }

  /**
   * The mesh after `load` from position `start` of `s`, starting from mesh
   * `p` with uninitialised metadata `meta` and with the header's length
   * counted from `origin`.
   */
  function Decode(s: seq<Cell>, start: nat, p: MeshData, meta: Meta, origin: nat): (d: MeshData)
  {
    Loaded(s, LayoutOf(s, start, FlagsOf(p), meta, origin), p)
  }

  /**
   * The mesh `load` builds from layout `l` over mesh `p`: the decoded flags and
   * counts, the buffers read in file order, the stored box when flagged, the
   * edges when the edge count is positive; lightmap and refmap state are kept.
   */
  function Loaded(s: seq<Cell>, l: Layout, p: MeshData): (d: MeshData)
  {
    var f := l.flags;
    var vc := l.meta.vertexCount;
    var uv := LoadedUVCount(l);
    var o := SectionsOf(l);
    p.(vertexCount := vc, uvCount := uv, indexCount := l.meta.indexCount, edgeCount := f.edgeCount,
       hasNormal := f.hasNormal, hasTexcoord := f.hasTexcoord, hasTangentSpaceBasis := f.hasTangentSpaceBasis,
       hasBoundingBox := f.hasBoundingBox, hasColor := f.hasColor, hasGrabBoundary := f.hasGrabBoundary,
       vertices := Decoded(AsVec3, CellsAt(s, l.payload, vc)),
       normals := if f.hasNormal then Decoded(AsVec3, CellsAt(s, o.normals, vc)) else [],
       texcoords := if f.hasTexcoord then Decoded(AsVec2, CellsAt(s, o.texcoords, vc * uv)) else [],
       tangents := if f.hasTangentSpaceBasis then Decoded(AsVec3, CellsAt(s, o.tangents, vc)) else [],
       bitangents := if f.hasTangentSpaceBasis then Decoded(AsVec3, CellsAt(s, o.bitangents, vc)) else [],
       colors := if f.hasColor then Decoded(AsColor, CellsAt(s, o.colors, vc)) else [],
       indexes := if l.meta.indexCount > 0 then Decoded(AsIndex, CellsAt(s, o.indexes, l.meta.indexCount)) else [],
       edges := if f.edgeCount > 0 then Decoded(AsEdge, CellsAt(s, o.edges, l.meta.edgeCount)) else p.edges,
       bbox := if f.hasBoundingBox then l.meta.bbox else p.bbox,
       grabBoundary := f.grabBoundary)
  }

  /** The snapshot `d` with the positions `load` reads under layout `l`. */
  function WithPositions(d: MeshData, s: seq<Cell>, l: Layout): MeshData
  {
    d.(vertices := Decoded(AsVec3, CellsAt(s, l.payload, l.meta.vertexCount)))
  }

  /** The snapshot `d` with the normals `load` reads under layout `l`. */
  function WithNormals(d: MeshData, s: seq<Cell>, l: Layout): MeshData
  {
    d.(normals := if l.flags.hasNormal then Decoded(AsVec3, CellsAt(s, SectionsOf(l).normals, l.meta.vertexCount)) else [])
  }

  /** The snapshot `d` with the UV sets `load` reads under layout `l`. */
  function WithTexcoords(d: MeshData, s: seq<Cell>, l: Layout): MeshData
  {
    var n := l.meta.vertexCount * LoadedUVCount(l);
    d.(texcoords := if l.flags.hasTexcoord then Decoded(AsVec2, CellsAt(s, SectionsOf(l).texcoords, n)) else [])
  }

  /** The snapshot `d` with the tangents and bitangents `load` reads under layout `l`. */
  function WithTangentBasis(d: MeshData, s: seq<Cell>, l: Layout): MeshData
  {
    var b, vc, o := l.flags.hasTangentSpaceBasis, l.meta.vertexCount, SectionsOf(l);
    d.(tangents := if b then Decoded(AsVec3, CellsAt(s, o.tangents, vc)) else [],
       bitangents := if b then Decoded(AsVec3, CellsAt(s, o.bitangents, vc)) else [])
  }

  /** The snapshot `d` with the colours `load` reads under layout `l`. */
  function WithColors(d: MeshData, s: seq<Cell>, l: Layout): MeshData
  {
    d.(colors := if l.flags.hasColor then Decoded(AsColor, CellsAt(s, SectionsOf(l).colors, l.meta.vertexCount)) else [])
  }

  /** The snapshot `d` with the indexes `load` reads under layout `l`. */
  function WithIndexes(d: MeshData, s: seq<Cell>, l: Layout): MeshData
  {
    var n := l.meta.indexCount;
    d.(indexes := if n > 0 then Decoded(AsIndex, CellsAt(s, SectionsOf(l).indexes, n)) else [])
  }

  /** The snapshot `d` with every buffer `load` reads under layout `l`, in file order. */
  function WithBuffers(d: MeshData, s: seq<Cell>, l: Layout): MeshData
  {
    WithIndexes(WithColors(WithTangentBasis(WithTexcoords(WithNormals(WithPositions(d, s, l), s, l), s, l), s, l), s, l), s, l)
  }

  /**
   * Reading every buffer into the mesh `init` left with the decoded counts and
   * flags, and `p`'s other state, gives what `load` builds but for the box and
   * the edges.
   */
  lemma BuffersMakeLoaded(d: MeshData, s: seq<Cell>, l: Layout, p: MeshData)
    requires FlagsOf(d) == l.flags
    requires d.vertexCount == l.meta.vertexCount && d.uvCount == LoadedUVCount(l) && d.indexCount == l.meta.indexCount
    requires d.hasLightmap == p.hasLightmap && d.hasRefmap == p.hasRefmap
    requires d.lightmapTrunkUid == p.lightmapTrunkUid && d.refmapTrunkUid == p.refmapTrunkUid
    requires d.bbox == p.bbox && d.edges == p.edges
    ensures WithBuffers(d, s, l) == Loaded(s, l, p).(bbox := p.bbox, edges := p.edges)
  {
  }

  /** Then setting the box when flagged and reading the edges when counted completes what `load` builds. */
  lemma BoxAndEdgesMakeLoaded(s: seq<Cell>, l: Layout, p: MeshData)
    ensures var d := Loaded(s, l, p).(bbox := p.bbox, edges := p.edges);
      d.(bbox := if d.hasBoundingBox then l.meta.bbox else d.bbox,
         edges := if d.edgeCount > 0 then Decoded(AsEdge, CellsAt(s, SectionsOf(l).edges, l.meta.edgeCount)) else d.edges)
      == Loaded(s, l, p)
  {
  }

  // ---- streams ----

  /** `s` with `c` written from position `p`: cells past the end of `s` extend it. */
  function Overwrite(s: seq<Cell>, p: nat, c: seq<Cell>): (r: seq<Cell>)
    requires p <= |s|
    ensures |r| == if p + |c| <= |s| then |s| else p + |c|
    ensures r[..p] == s[..p] && r[p .. p + |c|] == c
  {
    s[..p] + c + (if p + |c| <= |s| then s[p + |c| ..] else [])
  }

  /** Two writes one after the other are one write of both. */
  lemma OverwriteTwice(s: seq<Cell>, p: nat, a: seq<Cell>, b: seq<Cell>)
    requires p <= |s|
    ensures Overwrite(Overwrite(s, p, a), p + |a|, b) == Overwrite(s, p, a + b)
  {
    var t := Overwrite(s, p, a);
    assert t[..p + |a|] == s[..p] + a;
    if p + |a| + |b| <= |s| {
      assert t[p + |a| + |b| ..] == s[p + |a| + |b| ..];
    }
  }

  /**
   * A seekable stream of cells: reads decode the cells from the position on
   * (a fixed default past the end), writes overwrite and extend; both move
   * the position past what they transfer.
   */
  class CellStream {
    var data: seq<Cell>
    var position: nat

    constructor (data: seq<Cell>)
      ensures this.data == data && position == 0
    {
      this.data := data;
      position := 0;
    }

    method SetPosition(p: nat)
      modifies this
      ensures data == old(data) && position == p
    {
      position := p;
    }

    method ReadHeader() returns (h: Header)
      modifies this
      ensures h == HeaderAt(old(data), old(position))
      ensures data == old(data) && position == old(position) + HeaderCells
    {
      h := HeaderAt(data, position);
      position := position + HeaderCells;
    }

    method ReadOldHeader() returns (h: OldHeader)
      modifies this
      ensures h == OldHeaderAt(old(data), old(position))
      ensures data == old(data) && position == old(position) + HeaderCells
    {
      h := OldHeaderAt(data, position);
      position := position + HeaderCells;
    }

    method ReadMeta() returns (m: Meta)
      modifies this
      ensures m == MetaAt(old(data), old(position))
      ensures data == old(data) && position == old(position) + MetaCells
    {
      m := MetaAt(data, position);
      position := position + MetaCells;
    }

    method ReadMeta0101() returns (m: Meta0101)
      modifies this
      ensures m == Meta0101At(old(data), old(position))
      ensures data == old(data) && position == old(position) + OldMetaCells
    {
      m := Meta0101At(data, position);
      position := position + OldMetaCells;
    }

    /** Reads a 0x0102 record over the first fields of `meta`. */
    method ReadMeta0102Over(meta: Meta) returns (m: Meta)
      modifies this
      ensures m == Meta0102Over(meta, old(data), old(position))
      ensures data == old(data) && position == old(position) + OldMetaCells
    {
      m := Meta0102Over(meta, data, position);
      position := position + OldMetaCells;
    }

    /** Fills `a` with the next `a.Length` cells, decoded by `dec`. */
    method ReadInto<T>(a: array<T>, dec: Cell -> T)
      modifies this, a
      ensures a[..] == Decoded(dec, CellsAt(old(data), old(position), a.Length))
      ensures data == old(data) && position == old(position) + a.Length
    {
      var i := 0;
      while i < a.Length
        invariant 0 <= i <= a.Length && data == old(data) && position == old(position)
        invariant forall j :: 0 <= j < i ==> a[j] == dec(CellAt(data, position + j))
      {
        a[i] := dec(CellAt(data, position + i));
        i := i + 1;
      }
      position := position + a.Length;
    }

    method Write(cells: seq<Cell>)
      requires position <= |data|
      modifies this
      ensures data == Overwrite(old(data), old(position), cells) && position == old(position) + |cells|
    {
      data := Overwrite(data, position, cells);
      position := position + |cells|;
    }
  }

  // ---- segments of the payload ----

  /** The first `j` segments begin the first `k`. */
  lemma {:induction false} PayloadPrefix(d: MeshData, j: nat, k: nat)
    requires j <= k
    ensures |PayloadUpTo(d, j)| <= |PayloadUpTo(d, k)| && PayloadUpTo(d, k)[..|PayloadUpTo(d, j)|] == PayloadUpTo(d, j)
  {
    if j < k {
      PayloadPrefix(d, j, k - 1);
    }
  }

  /** Segment `k` sits in the payload right after the segments before it. */
  lemma SegmentAt(d: MeshData, k: nat)
    requires k < 8
    ensures var o := |PayloadUpTo(d, k)|;
      o + |Segment(d, k)| <= |PayloadCells(d)| && PayloadCells(d)[o .. o + |Segment(d, k)|] == Segment(d, k)
  {
    PayloadPrefix(d, k + 1, 8);
  }

  // ---- save ----

  /** The features `createMeshFileHeader` tests on a mesh; wireframe is a positive edge count with an edge buffer. */
  function MeshFeatures(mesh: Mesh): Features
    reads mesh
  {
    Features(mesh.hasNormal, mesh.hasTexcoord, mesh.hasTangentSpaceBasis, mesh.hasBoundingBox,
             mesh.hasLightmap, mesh.hasRefmap, mesh.hasColor, mesh.hasGrabBoundary, mesh.edgeCount > 0 && mesh.edges != null)
  }

  function MeshSummary(mesh: Mesh): Summary
    reads mesh
  {
    Summary(MeshFeatures(mesh), mesh.vertexCount, mesh.uvCount, mesh.indexCount, mesh.edgeCount,
            mesh.bbox, mesh.grabBoundary, mesh.lightmapTrunkUid, mesh.refmapTrunkUid)
  }

  /** A valid mesh whose edge buffer holds its edge count summarises as its snapshot does. */
  lemma SummaryAgrees(mesh: Mesh, d: MeshData)
    requires mesh.edges != null ==> mesh.edges.Length >= mesh.edgeCount
    ensures mesh.Valid() && d == mesh.Data() ==> MeshSummary(mesh) == SummaryOf(d)
  {
  }

  /**
   * `createMeshFileHeader`: sets a flag in the header and fills the
   * metadata for each field the mesh has, in the source's order.
   */
  method CreateMeshFileHeader(mesh: Mesh, header: Header, meta: Meta) returns (h: Header, m: Meta)
    ensures h == header.(flags := header.flags + FlagSet(MeshFeatures(mesh)))
    ensures m == MetaFor(MeshSummary(mesh), meta)
  {
    h, m := MarkShape(mesh, header, meta);
    h, m := MarkAttachments(mesh, h, m);
  }

  /** The first half of `createMeshFileHeader`: normals, texcoords, tangent basis, counts and bounding box. */
  method MarkShape(mesh: Mesh, header: Header, meta: Meta) returns (h: Header, m: Meta)
    ensures h.formatTag == header.formatTag && h.ver == header.ver && h.length == header.length
    ensures forall f :: f in h.flags <==> (f in header.flags
      || (f in {HasNormal, HasTexcoord, HasTangentBasisData, HasBoundingBox} && Present(MeshFeatures(mesh), f)))
    ensures m == meta.(vertexCount := mesh.vertexCount, uvCount := mesh.uvCount, indexCount := mesh.indexCount,
                       bbox := if mesh.hasBoundingBox then mesh.bbox else meta.bbox)
  {
    h, m := header, meta;
    if mesh.hasNormal {
      h := h.(flags := h.flags + {HasNormal});
    }
    if mesh.hasTexcoord {
      h := h.(flags := h.flags + {HasTexcoord});
    }
    if mesh.hasTangentSpaceBasis {
      h := h.(flags := h.flags + {HasTangentBasisData});
    }
    m := m.(vertexCount := mesh.vertexCount, uvCount := mesh.uvCount, indexCount := mesh.indexCount);
    if mesh.hasBoundingBox {
      h := h.(flags := h.flags + {HasBoundingBox});
      m := m.(bbox := mesh.bbox);
    }
  }

  /** The second half of `createMeshFileHeader`: lightmap, refmap, colours, grab boundary and wireframe. */
  method MarkAttachments(mesh: Mesh, header: Header, meta: Meta) returns (h: Header, m: Meta)
    ensures h.formatTag == header.formatTag && h.ver == header.ver && h.length == header.length
    ensures forall f :: f in h.flags <==> (f in header.flags
      || (f in {HasLightmap, HasRefmap, HasColor, HasGrabBoundary, HasWireframe} && Present(MeshFeatures(mesh), f)))
    ensures var wire := mesh.edgeCount > 0 && mesh.edges != null;
      m == meta.(lightmapTrunkId := if mesh.hasLightmap then mesh.lightmapTrunkUid else meta.lightmapTrunkId,
                 lightmapType := if mesh.hasLightmap then LightmapJpeg else meta.lightmapType,
                 refmapTrunkId := if mesh.hasRefmap then mesh.refmapTrunkUid else meta.refmapTrunkId,
                 grabBoundary := if mesh.hasGrabBoundary then mesh.grabBoundary else meta.grabBoundary,
                 edgeCount := if wire then mesh.edgeCount else meta.edgeCount)
  {
    h, m := header, meta;
    if mesh.hasLightmap {
      h := h.(flags := h.flags + {HasLightmap});
      m := m.(lightmapTrunkId := mesh.lightmapTrunkUid, lightmapType := LightmapJpeg);
    }
    if mesh.hasRefmap {
      h := h.(flags := h.flags + {HasRefmap});
      m := m.(refmapTrunkId := mesh.refmapTrunkUid);
    }
    if mesh.hasColor {
      h := h.(flags := h.flags + {HasColor});
    }
    if mesh.hasGrabBoundary {
      h := h.(flags := h.flags + {HasGrabBoundary});
      m := m.(grabBoundary := mesh.grabBoundary);
    }
    if mesh.edgeCount > 0 && mesh.edges != null {
      h := h.(flags := h.flags + {HasWireframe});
      m := m.(edgeCount := mesh.edgeCount);
    }
  }

  /** The stream holds `w` written from `p0` over `s0`, and is positioned after it. */
  predicate Written(data: seq<Cell>, position: nat, s0: seq<Cell>, p0: nat, w: seq<Cell>)
  {
    p0 <= |s0| && data == Overwrite(s0, p0, w) && position == p0 + |w|
  }

  /** Writes `cells` after `w`. */
  method WriteMore(stream: CellStream, cells: seq<Cell>, ghost s0: seq<Cell>, ghost p0: nat, ghost w: seq<Cell>)
    requires Written(stream.data, stream.position, s0, p0, w)
    modifies stream
    ensures Written(stream.data, stream.position, s0, p0, w + cells)
  {
    stream.Write(cells);
    OverwriteTwice(s0, p0, w, cells);
  }

  /**
   * `save` to a stream: a header with the mesh tag, the current version, no
   * flags and the length of header and metadata, completed by
   * `createMeshFileHeader`; then the metadata and the payload.
   */
  method Save(mesh: Mesh, stream: CellStream, meta: Meta)
    requires mesh.Valid() && (mesh.edges != null ==> mesh.edges.Length >= mesh.edgeCount)
    requires stream.position <= |stream.data|
    modifies stream
    ensures Written(stream.data, stream.position, old(stream.data), old(stream.position), Encode(old(mesh.Data()), meta))
  {
    ghost var d := mesh.Data();
    SummaryAgrees(mesh, d);
    var h, m := SaveHeader(mesh, meta, d);
    BacksData(mesh, d);
    WriteFile(mesh, stream, h, m, d, meta);
  }

  /** The header `save` starts from, completed by `createMeshFileHeader`, is the file header of the snapshot. */
  method SaveHeader(mesh: Mesh, meta: Meta, ghost d: MeshData) returns (h: Header, m: Meta)
    requires MeshSummary(mesh) == SummaryOf(d)
    ensures h == FileHeader(d) && m == FileMeta(d, meta)
  {
    var header := Header(MeshTag, CurrentVersion, {}, HeaderCells + MetaCells);
    h, m := CreateMeshFileHeader(mesh, header, meta);
    assert MeshFeatures(mesh) == FeaturesOf(d);
    EmptyUnion(FlagSet(MeshFeatures(mesh)));
  }

  /** Writes the file header, the metadata and the payload of the snapshot. */
  method WriteFile(mesh: Mesh, stream: CellStream, h: Header, m: Meta, ghost d: MeshData, ghost meta: Meta)
    requires h == FileHeader(d) && m == FileMeta(d, meta)
    requires BacksPositions(mesh, d) && BacksNormals(mesh, d)
      && BacksTexcoords(mesh, d) && BacksTangentBasis(mesh, d) && BacksColors(mesh, d)
      && BacksIndexes(mesh, d) && BacksEdges(mesh, d)
    requires stream.position <= |stream.data|
    modifies stream
    ensures Written(stream.data, stream.position, old(stream.data), old(stream.position), Encode(d, meta))
  {
    ghost var s0, p0 := stream.data, stream.position;
    WriteHeader(stream, h, m, FileHeader(d), FileMeta(d, meta));
    WritePayload(mesh, stream, d);
    OverwriteTwice(s0, p0, HeaderCellsOf(h) + MetaCellsOf(m), PayloadCells(d));
  }

  /** A set joined to the empty set is itself. */
  lemma EmptyUnion<T>(s: set<T>)
    ensures {} + s == s
  {
  }

  /** Writes the header and the metadata record. */
  method WriteHeader(stream: CellStream, h: Header, m: Meta, ghost fh: Header, ghost fm: Meta)
    requires h == fh && m == fm
    requires stream.position <= |stream.data|
    modifies stream
    ensures Written(stream.data, stream.position, old(stream.data), old(stream.position), HeaderCellsOf(fh) + MetaCellsOf(fm))
  {
    ghost var s0, p0 := stream.data, stream.position;
    stream.Write(HeaderCellsOf(h));
    stream.Write(MetaCellsOf(m));
    OverwriteTwice(s0, p0, HeaderCellsOf(h), MetaCellsOf(m));
  }

  /** The mesh's positions are the snapshot `d`'s, as far as `save` writes them. */
  predicate BacksPositions(mesh: Mesh, d: MeshData)
    reads mesh`vertices, mesh.vertices
  {
    (mesh.vertices != null ==> mesh.vertices[..] == d.vertices) && (mesh.vertices == null ==> d.vertices == [])
  }

  /** The mesh's normals are the snapshot `d`'s, as far as `save` writes them. */
  predicate BacksNormals(mesh: Mesh, d: MeshData)
    reads mesh`hasNormal, mesh`normals, mesh.normals
  {
    mesh.hasNormal == d.hasNormal && (d.hasNormal ==> mesh.normals != null && mesh.normals[..] == d.normals)
  }

  /** The mesh's UV sets are the snapshot `d`'s, as far as `save` writes them. */
  predicate BacksTexcoords(mesh: Mesh, d: MeshData)
    reads mesh`hasTexcoord, mesh`texcoords, mesh.texcoords
  {
    mesh.hasTexcoord == d.hasTexcoord && (d.hasTexcoord ==> mesh.texcoords != null && mesh.texcoords[..] == d.texcoords)
  }

  /** The mesh's tangents and bitangents are the snapshot `d`'s, as far as `save` writes them. */
  predicate BacksTangentBasis(mesh: Mesh, d: MeshData)
    reads mesh`hasTangentSpaceBasis, mesh`tangents, mesh`bitangents, mesh.tangents, mesh.bitangents
  {
    mesh.hasTangentSpaceBasis == d.hasTangentSpaceBasis
      && (d.hasTangentSpaceBasis ==> mesh.tangents != null && mesh.tangents[..] == d.tangents && mesh.bitangents != null && mesh.bitangents[..] == d.bitangents)
  }

  /** The mesh's colours are the snapshot `d`'s, as far as `save` writes them. */
  predicate BacksColors(mesh: Mesh, d: MeshData)
    reads mesh`hasColor, mesh`vertexCount, mesh`colors, mesh.colors
  {
    mesh.hasColor == d.hasColor
      && (d.hasColor ==> mesh.colors != null && mesh.vertexCount <= mesh.colors.Length && mesh.colors[..mesh.vertexCount] == d.colors)
  }

  /** The mesh's indexes are the snapshot `d`'s, as far as `save` writes them. */
  predicate BacksIndexes(mesh: Mesh, d: MeshData)
    reads mesh`indexCount, mesh`indexes, mesh.indexes
  {
    mesh.indexCount == d.indexCount && (d.indexCount > 0 ==> mesh.indexes != null && mesh.indexes[..] == d.indexes)
  }

  /** The mesh's edges are the snapshot `d`'s, as far as `save` writes them. */
  predicate BacksEdges(mesh: Mesh, d: MeshData)
    reads mesh, mesh.edges
  {
    (mesh.edges != null ==> mesh.edges.Length >= mesh.edgeCount) && (mesh.edgeCount > 0 && mesh.edges != null) == Wireframe(d)
      && (Wireframe(d) ==> mesh.edges[..mesh.edgeCount] == d.edges[..d.edgeCount])
  }

  /** A valid mesh backs its own snapshot. */
  lemma BacksData(mesh: Mesh, d: MeshData)
    requires mesh.edges != null ==> mesh.edges.Length >= mesh.edgeCount
    ensures mesh.Valid() && d == mesh.Data() ==>
      BacksPositions(mesh, d) && BacksNormals(mesh, d) && BacksTexcoords(mesh, d) && BacksTangentBasis(mesh, d)
      && BacksColors(mesh, d) && BacksIndexes(mesh, d) && BacksEdges(mesh, d)
  {
  }

  /** The buffer writes of `save`, in file order. */
  method WritePayload(mesh: Mesh, stream: CellStream, ghost d: MeshData)
    requires BacksPositions(mesh, d) && BacksNormals(mesh, d)
      && BacksTexcoords(mesh, d) && BacksTangentBasis(mesh, d) && BacksColors(mesh, d)
      && BacksIndexes(mesh, d) && BacksEdges(mesh, d)
    requires stream.position <= |stream.data|
    modifies stream
    ensures Written(stream.data, stream.position, old(stream.data), old(stream.position), PayloadCells(d))
  {
    ghost var s0, p0 := stream.data, stream.position;
    assert Written(stream.data, stream.position, s0, p0, PayloadUpTo(d, 0));
    WritePositions(mesh, stream, d, s0, p0);
    WriteNormals(mesh, stream, d, s0, p0);
    WriteTexcoords(mesh, stream, d, s0, p0);
    WriteTangentBasis(mesh, stream, d, s0, p0);
    WriteColors(mesh, stream, d, s0, p0);
    WriteIndexes(mesh, stream, d, s0, p0);
    WriteEdges(mesh, stream, d, s0, p0);
  }

  /** Writes the positions when `save` does. */
  method WritePositions(mesh: Mesh, stream: CellStream, ghost d: MeshData, ghost s0: seq<Cell>, ghost p0: nat)
    requires BacksPositions(mesh, d)
    requires Written(stream.data, stream.position, s0, p0, PayloadUpTo(d, 0))
    modifies stream
    ensures Written(stream.data, stream.position, s0, p0, PayloadUpTo(d, 1))
  {
    if mesh.vertices != null {
      WriteMore(stream, Encoded(FromVec3, mesh.vertices[..]), s0, p0, PayloadUpTo(d, 0));
    }
  }

  /** Writes the normals when `save` does. */
  method WriteNormals(mesh: Mesh, stream: CellStream, ghost d: MeshData, ghost s0: seq<Cell>, ghost p0: nat)
    requires BacksNormals(mesh, d)
    requires Written(stream.data, stream.position, s0, p0, PayloadUpTo(d, 1))
    modifies stream
    ensures Written(stream.data, stream.position, s0, p0, PayloadUpTo(d, 2))
  {
    if mesh.hasNormal {
      WriteMore(stream, Encoded(FromVec3, mesh.normals[..]), s0, p0, PayloadUpTo(d, 1));
    }
  }

  /** Writes the UV sets when `save` does. */
  method WriteTexcoords(mesh: Mesh, stream: CellStream, ghost d: MeshData, ghost s0: seq<Cell>, ghost p0: nat)
    requires BacksTexcoords(mesh, d)
    requires Written(stream.data, stream.position, s0, p0, PayloadUpTo(d, 2))
    modifies stream
    ensures Written(stream.data, stream.position, s0, p0, PayloadUpTo(d, 3))
  {
    if mesh.hasTexcoord {
      WriteMore(stream, Encoded(FromVec2, mesh.texcoords[..]), s0, p0, PayloadUpTo(d, 2));
    }
  }

  /** Writes the tangents and bitangents when `save` does. */
  method WriteTangentBasis(mesh: Mesh, stream: CellStream, ghost d: MeshData, ghost s0: seq<Cell>, ghost p0: nat)
    requires BacksTangentBasis(mesh, d)
    requires Written(stream.data, stream.position, s0, p0, PayloadUpTo(d, 3))
    modifies stream
    ensures Written(stream.data, stream.position, s0, p0, PayloadUpTo(d, 5))
  {
    if mesh.hasTangentSpaceBasis {
      WriteMore(stream, Encoded(FromVec3, mesh.tangents[..]), s0, p0, PayloadUpTo(d, 3));
      WriteMore(stream, Encoded(FromVec3, mesh.bitangents[..]), s0, p0, PayloadUpTo(d, 4));
    }
  }

  /** Writes the colours of the first `vertexCount` vertices when `save` does. */
  method WriteColors(mesh: Mesh, stream: CellStream, ghost d: MeshData, ghost s0: seq<Cell>, ghost p0: nat)
    requires BacksColors(mesh, d)
    requires Written(stream.data, stream.position, s0, p0, PayloadUpTo(d, 5))
    modifies stream
    ensures Written(stream.data, stream.position, s0, p0, PayloadUpTo(d, 6))
  {
    if mesh.hasColor {
      WriteMore(stream, Encoded(FromColor, mesh.colors[..mesh.vertexCount]), s0, p0, PayloadUpTo(d, 5));
    }
  }

  /** Writes the indexes when `save` does. */
  method WriteIndexes(mesh: Mesh, stream: CellStream, ghost d: MeshData, ghost s0: seq<Cell>, ghost p0: nat)
    requires BacksIndexes(mesh, d)
    requires Written(stream.data, stream.position, s0, p0, PayloadUpTo(d, 6))
    modifies stream
    ensures Written(stream.data, stream.position, s0, p0, PayloadUpTo(d, 7))
  {
    if mesh.indexCount > 0 {
      WriteMore(stream, Encoded(FromIndex, mesh.indexes[..]), s0, p0, PayloadUpTo(d, 6));
    }
  }

  /** Writes the first `edgeCount` edges when `save` does. */
  method WriteEdges(mesh: Mesh, stream: CellStream, ghost d: MeshData, ghost s0: seq<Cell>, ghost p0: nat)
    requires BacksEdges(mesh, d)
    requires Written(stream.data, stream.position, s0, p0, PayloadUpTo(d, 7))
    modifies stream
    ensures Written(stream.data, stream.position, s0, p0, PayloadUpTo(d, 8))
  {
    if mesh.edgeCount > 0 && mesh.edges != null {
      WriteMore(stream, Encoded(FromEdge, mesh.edges[..mesh.edgeCount]), s0, p0, PayloadUpTo(d, 7));
    }
  }

  // ---- load ----

  /** The flags and fields `load` decodes from the header, as the mesh has them. */
  function MeshFlags(mesh: Mesh): Flags
    reads mesh
  {
    Flags(mesh.hasNormal, mesh.hasTexcoord, mesh.hasTangentSpaceBasis, mesh.hasBoundingBox,
          mesh.hasColor, mesh.hasGrabBoundary, mesh.grabBoundary, mesh.edgeCount)
  }

  /**
   * What `load` can keep of the mesh it is given: its counts, flags, box, grab
   * boundary, trunk uids and edge buffer; the other buffers are reallocated.
   */
  function Prior(mesh: Mesh): (p: MeshData)
    reads mesh, mesh.edges
    ensures FlagsOf(p) == MeshFlags(mesh)
  {
    MeshData(mesh.vertexCount, mesh.uvCount, mesh.indexCount, mesh.edgeCount,
             mesh.hasNormal, mesh.hasTexcoord, mesh.hasTangentSpaceBasis, mesh.hasBoundingBox,
             mesh.hasColor, mesh.hasLightmap, mesh.hasRefmap, mesh.hasGrabBoundary,
             [], [], [], [], [], [], [], if mesh.edges != null then mesh.edges[..] else [],
             mesh.bbox, mesh.grabBoundary, mesh.lightmapTrunkUid, mesh.refmapTrunkUid)
  }

  /**
   * The header and metadata part of `load`: reads the header; a tagged file's
   * version selects the metadata layout and which flags are taken from the
   * header, then the stream seeks to the header's length counted from
   * `origin`; any other file is reread from the start as a legacy header.
   */
  method ReadLayout(stream: CellStream, prior: Flags, meta: Meta, origin: nat) returns (l: Layout)
    modifies stream
    ensures l == LayoutOf(old(stream.data), old(stream.position), prior, meta, origin)
    ensures stream.data == old(stream.data) && stream.position == l.payload
  {
    var start := stream.position;
    var header := stream.ReadHeader();
    if header.formatTag == MeshTag {
      l := ReadTaggedMeta(stream, header, prior, meta, start);
      stream.SetPosition(origin + header.length);
      l := l.(payload := origin + header.length);
    } else {
      stream.SetPosition(start);
      var oldHeader := stream.ReadOldHeader();
      l := Layout(meta.(vertexCount := oldHeader.vertexCount, uvCount := 1, indexCount := 0), prior, stream.position);
    }
  }

  /** The metadata record of a tagged file and the flags it sets, by version. */
  method ReadTaggedMeta(stream: CellStream, header: Header, prior: Flags, meta: Meta, ghost start: nat) returns (l: Layout)
    requires header == HeaderAt(stream.data, start) && stream.position == start + HeaderCells
    requires header.formatTag == MeshTag
    modifies stream
    ensures var t := LayoutOf(old(stream.data), start, prior, meta, 0);
      l.meta == t.meta && l.flags == t.flags
    ensures stream.data == old(stream.data)
  {
    var f := prior;
    var m := meta;
    if header.ver < 0x0102 {
      var meta0101 := stream.ReadMeta0101();
      m := m.(vertexCount := meta0101.vertexCount, uvCount := meta0101.uvCount, indexCount := meta0101.indexCount);
      f := f.(hasNormal := meta0101.normalCount > 0, hasTexcoord := meta0101.texcoordCount > 0,
              hasTangentSpaceBasis := HasNormal in header.flags);
    } else {
      if header.ver < 0x0103 {
        m := stream.ReadMeta0102Over(m);
      } else {
        m := stream.ReadMeta();
      }
      f := f.(hasNormal := HasNormal in header.flags, hasTexcoord := HasTexcoord in header.flags,
              hasTangentSpaceBasis := HasTangentBasisData in header.flags,
              hasBoundingBox := HasBoundingBox in header.flags);
      if header.ver >= 0x0103 {
        f := f.(hasColor := HasColor in header.flags);
        if header.ver >= 0x0104 {
          f := f.(hasGrabBoundary := HasGrabBoundary in header.flags, grabBoundary := m.grabBoundary);
          if HasWireframe in header.flags && m.edgeCount > 0 {
            f := f.(edgeCount := m.edgeCount);
          }
        }
      }
    }
    l := Layout(m, f, 0);
  }

  /** The header fields `load` sets on the mesh before `init`. */
  method ApplyFlags(mesh: Mesh, f: Flags)
    modifies mesh
    ensures MeshFlags(mesh) == f
    ensures mesh.vertexCount == old(mesh.vertexCount) && mesh.uvCount == old(mesh.uvCount) && mesh.indexCount == old(mesh.indexCount)
    ensures mesh.hasLightmap == old(mesh.hasLightmap) && mesh.hasRefmap == old(mesh.hasRefmap)
    ensures mesh.bbox == old(mesh.bbox) && mesh.edges == old(mesh.edges)
    ensures mesh.lightmapTrunkUid == old(mesh.lightmapTrunkUid) && mesh.refmapTrunkUid == old(mesh.refmapTrunkUid)
  {
    mesh.hasNormal, mesh.hasTexcoord, mesh.hasTangentSpaceBasis, mesh.hasBoundingBox := f.hasNormal, f.hasTexcoord, f.hasTangentSpaceBasis, f.hasBoundingBox;
    mesh.hasColor, mesh.hasGrabBoundary, mesh.grabBoundary, mesh.edgeCount := f.hasColor, f.hasGrabBoundary, f.grabBoundary, f.edgeCount;
  }

  /** The mesh's whole edge buffer is the snapshot `d`'s. */
  predicate EdgesAre(mesh: Mesh, d: MeshData)
    reads mesh, mesh.edges
  {
    if mesh.edges != null then mesh.edges[..] == d.edges else d.edges == []
  }

  /**
   * `load` from the stream's position: the header and metadata, the flags set
   * on the mesh, `init` with the decoded counts (no UV sets without
   * texcoords), then the buffers, the box and the edges.
   */
  method LoadFrom(mesh: Mesh, stream: CellStream, meta: Meta, origin: nat)
    modifies mesh, stream
    ensures mesh.Valid()
    ensures mesh.Data() == Decode(old(stream.data), old(stream.position), old(Prior(mesh)), meta, origin)
    ensures stream.data == old(stream.data)
  {
    ghost var s, p := stream.data, Prior(mesh);
    var l := ReadLayout(stream, MeshFlags(mesh), meta, origin);
    ApplyFlags(mesh, l.flags);
    mesh.Init(l.meta.vertexCount, LoadedUVCount(l), l.meta.indexCount);
    LoadBuffers(mesh, stream, l, p, s);
  }

  /**
   * `load(Mesh&, Stream&)` as written: after a tagged header it seeks to the
   * header's length as an absolute position, so the payload is found only when
   * the mesh starts at position 0.
   */
  method Load(mesh: Mesh, stream: CellStream, meta: Meta)
    modifies mesh, stream
    ensures mesh.Valid()
    ensures mesh.Data() == Decode(old(stream.data), old(stream.position), old(Prior(mesh)), meta, 0)
    ensures stream.data == old(stream.data)
  {
    LoadFrom(mesh, stream, meta, 0);
  }

  /** `load` with the seek taken relative to where the mesh starts, as the format means it. */
  method LoadRelative(mesh: Mesh, stream: CellStream, meta: Meta)
    modifies mesh, stream
    ensures mesh.Valid()
    ensures mesh.Data() == Decode(old(stream.data), old(stream.position), old(Prior(mesh)), meta, old(stream.position))
    ensures stream.data == old(stream.data)
  {
    LoadFrom(mesh, stream, meta, stream.position);
  }

  /** The mesh keeps `p`'s lightmap and refmap state, box and edge buffer. */
  predicate Keeps(mesh: Mesh, p: MeshData)
    reads mesh, mesh.edges
  {
    mesh.hasLightmap == p.hasLightmap && mesh.hasRefmap == p.hasRefmap
    && mesh.lightmapTrunkUid == p.lightmapTrunkUid && mesh.refmapTrunkUid == p.refmapTrunkUid
    && mesh.bbox == p.bbox && EdgesAre(mesh, p)
  }

  /** Reading every buffer into the mesh `init` left gives what `load` builds, but for the box and the edges. */
  lemma InitMakesLoaded(mesh: Mesh, s: seq<Cell>, l: Layout, p: MeshData)
    ensures mesh.Valid() && Keeps(mesh, p) && MeshFlags(mesh) == l.flags
      && mesh.vertexCount == l.meta.vertexCount && mesh.uvCount == LoadedUVCount(l) && mesh.indexCount == l.meta.indexCount
      ==> WithBuffers(mesh.Data(), s, l) == Loaded(s, l, p).(bbox := p.bbox, edges := p.edges)
  {
    if mesh.Valid() && Keeps(mesh, p) && MeshFlags(mesh) == l.flags
      && mesh.vertexCount == l.meta.vertexCount && mesh.uvCount == LoadedUVCount(l) && mesh.indexCount == l.meta.indexCount
    {
      BuffersMakeLoaded(mesh.Data(), s, l, p);
    }
  }

  /** The part of `load` after `init`: the buffers in file order, the box when flagged, the edges. */
  method LoadBuffers(mesh: Mesh, stream: CellStream, l: Layout, ghost p: MeshData, ghost s: seq<Cell>)
    requires mesh.Valid() && Keeps(mesh, p)
    requires MeshFlags(mesh) == l.flags
    requires mesh.vertexCount == l.meta.vertexCount && mesh.uvCount == LoadedUVCount(l) && mesh.indexCount == l.meta.indexCount
    requires mesh.hasColor ==> mesh.colors.Length == mesh.vertexCount
    requires stream.data == s && stream.position == l.payload
    modifies mesh, stream, mesh.vertices, if mesh.hasNormal then {mesh.normals} else {}, if mesh.hasTexcoord then {mesh.texcoords} else {}
    modifies if mesh.hasTangentSpaceBasis then {mesh.tangents, mesh.bitangents} else {}
    modifies if mesh.hasColor then {mesh.colors} else {}, if mesh.indexCount > 0 then {mesh.indexes} else {}
    ensures mesh.Valid() && mesh.Data() == Loaded(s, l, p) && stream.data == s
  {
    ReadPayloadBuffers(mesh, stream, l, p, s);
    ReadBoxAndEdges(mesh, stream, l.meta, Loaded(s, l, p).(bbox := p.bbox, edges := p.edges));
    BoxAndEdgesMakeLoaded(s, l, p);
  }

  /** The buffer reads of `load`, in file order, from the start of the payload; the box and the edges stay `p`'s. */
  method ReadPayloadBuffers(mesh: Mesh, stream: CellStream, ghost l: Layout, ghost p: MeshData, ghost s: seq<Cell>)
    requires mesh.Valid() && Keeps(mesh, p)
    requires MeshFlags(mesh) == l.flags
    requires mesh.vertexCount == l.meta.vertexCount && mesh.uvCount == LoadedUVCount(l) && mesh.indexCount == l.meta.indexCount
    requires mesh.hasColor ==> mesh.colors.Length == mesh.vertexCount
    requires stream.data == s && stream.position == l.payload
    modifies stream, mesh.vertices, if mesh.hasNormal then {mesh.normals} else {}, if mesh.hasTexcoord then {mesh.texcoords} else {}
    modifies if mesh.hasTangentSpaceBasis then {mesh.tangents, mesh.bitangents} else {}
    modifies if mesh.hasColor then {mesh.colors} else {}, if mesh.indexCount > 0 then {mesh.indexes} else {}
    ensures mesh.Valid() && mesh.Data() == Loaded(s, l, p).(bbox := p.bbox, edges := p.edges)
    ensures stream.data == s && stream.position == SectionsOf(l).edges
  {
    InitMakesLoaded(mesh, s, l, p);
    ReadVectors(mesh, stream, l, s);
    ReadAttributes(mesh, stream, l, s);
  }

  /** The position, normal and texcoord reads of `load`, each where the previous one ends. */
  method ReadVectors(mesh: Mesh, stream: CellStream, ghost l: Layout, ghost s: seq<Cell>)
    requires mesh.Valid() && MeshFlags(mesh) == l.flags
    requires mesh.vertexCount == l.meta.vertexCount && mesh.uvCount == LoadedUVCount(l)
    requires stream.data == s && stream.position == l.payload
    modifies stream, mesh.vertices, if mesh.hasNormal then {mesh.normals} else {}, if mesh.hasTexcoord then {mesh.texcoords} else {}
    ensures mesh.Valid() && mesh.Data() == WithTexcoords(WithNormals(WithPositions(old(mesh.Data()), s, l), s, l), s, l)
    ensures stream.data == s && stream.position == SectionsOf(l).tangents
  {
    ReadPositions(mesh, stream, l, s);
    ReadNormals(mesh, stream, l, s);
    ReadTexcoords(mesh, stream, l, s);
  }

  /** The tangent-basis, colour and index reads of `load`, each where the previous one ends. */
  method ReadAttributes(mesh: Mesh, stream: CellStream, ghost l: Layout, ghost s: seq<Cell>)
    requires mesh.Valid() && MeshFlags(mesh) == l.flags
    requires mesh.vertexCount == l.meta.vertexCount && mesh.indexCount == l.meta.indexCount
    requires mesh.hasColor ==> mesh.colors.Length == mesh.vertexCount
    requires stream.data == s && stream.position == SectionsOf(l).tangents
    modifies stream, if mesh.hasTangentSpaceBasis then {mesh.tangents, mesh.bitangents} else {}
    modifies if mesh.hasColor then {mesh.colors} else {}, if mesh.indexCount > 0 then {mesh.indexes} else {}
    ensures mesh.Valid() && mesh.Data() == WithIndexes(WithColors(WithTangentBasis(old(mesh.Data()), s, l), s, l), s, l)
    ensures stream.data == s && stream.position == SectionsOf(l).edges
  {
    ReadTangentBasis(mesh, stream, l, s);
    ReadColors(mesh, stream, l, s);
    ReadIndexes(mesh, stream, l, s);
  }

  /** The end of `load`: the stored box when flagged, then the edges when the edge count is positive. */
  method ReadBoxAndEdges(mesh: Mesh, stream: CellStream, meta: Meta, ghost d: MeshData)
    requires mesh.Valid() && mesh.Data() == d
    modifies mesh, stream
    ensures mesh.Valid()
    ensures mesh.Data() == d.(bbox := if d.hasBoundingBox then meta.bbox else d.bbox,
                              edges := if d.edgeCount > 0 then Decoded(AsEdge, CellsAt(old(stream.data), old(stream.position), meta.edgeCount)) else d.edges)
    ensures stream.data == old(stream.data)
  {
    if mesh.hasBoundingBox {
      SetBox(mesh, meta.bbox);
    }
    if mesh.edgeCount > 0 {
      ReadEdges(mesh, stream, meta.edgeCount);
    }
  }

  /** `load` stores the box from the metadata. */
  method SetBox(mesh: Mesh, b: BoundingBox)
    requires mesh.Valid()
    modifies mesh
    ensures mesh.Valid() && mesh.Data() == old(mesh.Data()).(bbox := b)
  {
    mesh.bbox := b;
  }

  /** `load` gives the mesh a fresh edge buffer of `n` edges and reads it from the stream. */
  method ReadEdges(mesh: Mesh, stream: CellStream, n: nat)
    requires mesh.Valid()
    modifies mesh, stream
    ensures mesh.Valid()
    ensures mesh.Data() == old(mesh.Data()).(edges := Decoded(AsEdge, CellsAt(old(stream.data), old(stream.position), n)))
    ensures stream.data == old(stream.data) && stream.position == old(stream.position) + n
  {
    mesh.edges := new Edge[n];
    stream.ReadInto(mesh.edges, AsEdge);
  }

  /** Reads the positions (`vertexCount` of them, when there are any). */
  method ReadPositions(mesh: Mesh, stream: CellStream, ghost l: Layout, ghost s: seq<Cell>)
    requires mesh.Valid() && mesh.vertexCount == l.meta.vertexCount
    requires stream.data == s && stream.position == l.payload
    modifies stream, mesh.vertices
    ensures mesh.Valid() && mesh.Data() == WithPositions(old(mesh.Data()), s, l)
    ensures stream.data == s && stream.position == SectionsOf(l).normals
  {
    if mesh.vertexCount > 0 {
      stream.ReadInto(mesh.vertices, AsVec3);
    }
  }

  /** Reads the normals when the mesh has them. */
  method ReadNormals(mesh: Mesh, stream: CellStream, ghost l: Layout, ghost s: seq<Cell>)
    requires mesh.Valid() && mesh.vertexCount == l.meta.vertexCount && mesh.hasNormal == l.flags.hasNormal
    requires stream.data == s && stream.position == SectionsOf(l).normals
    modifies stream, if mesh.hasNormal then {mesh.normals} else {}
    ensures mesh.Valid() && mesh.Data() == WithNormals(old(mesh.Data()), s, l)
    ensures stream.data == s && stream.position == SectionsOf(l).texcoords
  {
    if mesh.hasNormal {
      stream.ReadInto(mesh.normals, AsVec3);
    }
  }

  /** Reads the UV sets when the mesh has texcoords and at least one set. */
  method ReadTexcoords(mesh: Mesh, stream: CellStream, ghost l: Layout, ghost s: seq<Cell>)
    requires mesh.Valid() && mesh.vertexCount == l.meta.vertexCount && mesh.uvCount == LoadedUVCount(l)
    requires mesh.hasTexcoord == l.flags.hasTexcoord
    requires stream.data == s && stream.position == SectionsOf(l).texcoords
    modifies stream, if mesh.hasTexcoord then {mesh.texcoords} else {}
    ensures mesh.Valid() && mesh.Data() == WithTexcoords(old(mesh.Data()), s, l)
    ensures stream.data == s && stream.position == SectionsOf(l).tangents
  {
    if mesh.hasTexcoord && mesh.uvCount > 0 {
      stream.ReadInto(mesh.texcoords, AsVec2);
    }
  }

  /** Reads the tangents, then the bitangents, when the mesh has a tangent basis. */
  method ReadTangentBasis(mesh: Mesh, stream: CellStream, ghost l: Layout, ghost s: seq<Cell>)
    requires mesh.Valid() && mesh.vertexCount == l.meta.vertexCount
    requires mesh.hasTangentSpaceBasis == l.flags.hasTangentSpaceBasis
    requires stream.data == s && stream.position == SectionsOf(l).tangents
    modifies stream, if mesh.hasTangentSpaceBasis then {mesh.tangents, mesh.bitangents} else {}
    ensures mesh.Valid() && mesh.Data() == WithTangentBasis(old(mesh.Data()), s, l)
    ensures stream.data == s && stream.position == SectionsOf(l).colors
  {
    if mesh.hasTangentSpaceBasis {
      stream.ReadInto(mesh.tangents, AsVec3);
      stream.ReadInto(mesh.bitangents, AsVec3);
    }
  }

  /** Reads the colours of the `vertexCount` vertices when the mesh has them. */
  method ReadColors(mesh: Mesh, stream: CellStream, ghost l: Layout, ghost s: seq<Cell>)
    requires mesh.Valid() && mesh.vertexCount == l.meta.vertexCount && mesh.hasColor == l.flags.hasColor
    requires mesh.hasColor ==> mesh.colors.Length == mesh.vertexCount
    requires stream.data == s && stream.position == SectionsOf(l).colors
    modifies stream, if mesh.hasColor then {mesh.colors} else {}
    ensures mesh.Valid() && mesh.Data() == WithColors(old(mesh.Data()), s, l)
    ensures stream.data == s && stream.position == SectionsOf(l).indexes
  {
    if mesh.hasColor {
      stream.ReadInto(mesh.colors, AsColor);
    }
  }

  /** Reads the index buffer when the index count is positive. */
  method ReadIndexes(mesh: Mesh, stream: CellStream, ghost l: Layout, ghost s: seq<Cell>)
    requires mesh.Valid() && mesh.indexCount == l.meta.indexCount
    requires stream.data == s && stream.position == SectionsOf(l).indexes
    modifies stream, if mesh.indexCount > 0 then {mesh.indexes} else {}
    ensures mesh.Valid() && mesh.Data() == WithIndexes(old(mesh.Data()), s, l)
    ensures stream.data == s && stream.position == SectionsOf(l).edges
  {
    if mesh.indexCount > 0 {
      stream.ReadInto(mesh.indexes, AsIndex);
    }
  }
}
