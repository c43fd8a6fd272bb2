// What `load` gives back for what `save` wrote: the decoded header and
// metadata, where each payload buffer is found, and the reloaded mesh.
module MeshRoundTrip {
  import opened Base
  import opened MeshTypes
  import opened Meshes
  import opened MeshLoader

  /** The flags `load` decodes from a saved mesh `d`, over the loading mesh's flags `prior`. */
  function SavedFlags(d: MeshData, prior: Flags, g: Meta): Flags
  {
    Flags(d.hasNormal, d.hasTexcoord, d.hasTangentSpaceBasis, d.hasBoundingBox, d.hasColor, d.hasGrabBoundary,
          if d.hasGrabBoundary then d.grabBoundary else g.grabBoundary,
          if Wireframe(d) then d.edgeCount else prior.edgeCount)
  }

  /**
   * The mesh `load` rebuilds from a saved snapshot `d`, over the mesh `p` it
   * loads into, `g` being the metadata record's initial contents in `save`
   * and `rest` what follows the saved mesh in the stream:
   * - counts, flags and every buffer come back, with no UV sets without texcoords;
   * - the box comes back when flagged, else `p`'s stays;
   * - the grab boundary is always taken from the metadata, so without the flag it is `g`'s;
   * - the edges come back when there is a wireframe; otherwise `p`'s edge count
   *   stays, and when it is positive that many edges as the metadata's edge
   *   count are read from what follows the mesh;
   * - lightmap and refmap state are never decoded: `p`'s stays.
   */
  function Reloaded(d: MeshData, p: MeshData, g: Meta, rest: seq<Cell>): MeshData
  {
    var wire := Wireframe(d);
    d.(uvCount := if d.hasTexcoord then d.uvCount else 0,
       edgeCount := if wire then d.edgeCount else p.edgeCount,
       edges := if wire then d.edges[..d.edgeCount]
                else if p.edgeCount > 0 then Decoded(AsEdge, CellsAt(rest, 0, g.edgeCount))
                else p.edges,
       bbox := if d.hasBoundingBox then d.bbox else p.bbox,
       grabBoundary := if d.hasGrabBoundary then d.grabBoundary else g.grabBoundary,
       hasLightmap := p.hasLightmap, hasRefmap := p.hasRefmap,
       lightmapTrunkUid := p.lightmapTrunkUid, refmapTrunkUid := p.refmapTrunkUid)
  }

  /** Cells read at `|a| + q` of `a + b` are `b`'s cells from `q`. */
  lemma CellsAfter(a: seq<Cell>, b: seq<Cell>, q: nat, n: nat)
    ensures CellsAt(a + b, |a| + q, n) == CellsAt(b, q, n)
  {
    forall i | 0 <= i < n
      ensures CellsAt(a + b, |a| + q, n)[i] == CellsAt(b, q, n)[i]
    {
      assert CellsAt(a + b, |a| + q, n)[i] == CellAt(a + b, |a| + q + i);
      assert CellsAt(b, q, n)[i] == CellAt(b, q + i);
      if q + i < |b| {
        assert (a + b)[|a| + q + i] == b[q + i];
      }
    }
  }

  /** The stream `pre + Encode(d, g) + rest` holds the header, the metadata and each segment at their places. */
  lemma EncodingAt(d: MeshData, g: Meta, pre: seq<Cell>, rest: seq<Cell>)
    ensures var s, e := pre + Encode(d, g) + rest, |pre|;
      s[e .. e + HeaderCells] == HeaderCellsOf(FileHeader(d))
      && s[e + HeaderCells .. e + HeaderCells + MetaCells] == MetaCellsOf(FileMeta(d, g))
      && s[e + HeaderCells + MetaCells .. e + HeaderCells + MetaCells + |PayloadCells(d)|] == PayloadCells(d)
  {
    var h, m, pl := HeaderCellsOf(FileHeader(d)), MetaCellsOf(FileMeta(d, g)), PayloadCells(d);
    var s := pre + Encode(d, g) + rest;
    assert s == pre + h + m + pl + rest;
  }

  /** The header and metadata of a saved mesh decode to its flags, its metadata and the payload right after them. */
  lemma LayoutOfEncoded(d: MeshData, g: Meta, pre: seq<Cell>, rest: seq<Cell>, prior: Flags, g2: Meta, origin: nat)
    ensures LayoutOf(pre + Encode(d, g) + rest, |pre|, prior, g2, origin)
      == Layout(FileMeta(d, g), SavedFlags(d, prior, g), origin + HeaderCells + MetaCells)
  {
    var s := pre + Encode(d, g) + rest;
    EncodingAt(d, g, pre, rest);
    HeaderRoundTrip(FileHeader(d), s, |pre|);
    MetaRoundTrip(FileMeta(d, g), s, |pre| + HeaderCells);
  }

  /** The length of the first `k` segments of a snapshot with consistent buffer lengths. */
  function PayloadLength(d: MeshData, k: nat): nat
  {
    if k == 0 then 0
    else PayloadLength(d, k - 1) + match k - 1
      case 0 => d.vertexCount
      case 1 => if d.hasNormal then d.vertexCount else 0
      case 2 => if d.hasTexcoord then d.vertexCount * d.uvCount else 0
      case 3 => if d.hasTangentSpaceBasis then d.vertexCount else 0
      case 4 => if d.hasTangentSpaceBasis then d.vertexCount else 0
      case 5 => if d.hasColor then d.vertexCount else 0
      case 6 => d.indexCount
      case _ => if Wireframe(d) then d.edgeCount else 0
  }

  lemma {:induction false} PayloadUpToLength(d: MeshData, k: nat)
    requires Sized(d) && k <= 8
    ensures |PayloadUpTo(d, k)| == PayloadLength(d, k)
  {
    if k > 0 {
      PayloadUpToLength(d, k - 1);
    }
  }

  /** Segment `k` of a saved mesh is read back from where `load` looks for it. */
  lemma SegmentReadBack<T>(d: MeshData, g: Meta, pre: seq<Cell>, rest: seq<Cell>, k: nat,
                           enc: T -> Cell, dec: Cell -> T, xs: seq<T>)
    requires Sized(d) && k < 8
    requires forall x :: dec(enc(x)) == x
    requires Segment(d, k) == Encoded(enc, xs)
    ensures Decoded(dec, CellsAt(pre + Encode(d, g) + rest, |pre| + HeaderCells + MetaCells + PayloadLength(d, k), |xs|)) == xs
  {
    var s, o := pre + Encode(d, g) + rest, |pre| + HeaderCells + MetaCells;
    var payload, a := PayloadCells(d), |PayloadUpTo(d, k)|;
    assert o + |payload| <= |s| && s[o .. o + |payload|] == payload by {
      EncodingAt(d, g, pre, rest);
    }
    assert a + |xs| <= |payload| && payload[a .. a + |xs|] == Encoded(enc, xs) by {
      SegmentAt(d, k);
    }
    SliceOfSlice(s, o, payload, a, |xs|);
    PayloadUpToLength(d, k);
    DecodeEncoded(enc, dec, xs, s, o + a);
  }

  lemma SliceOfSlice<T>(s: seq<T>, o: nat, inner: seq<T>, a: nat, m: nat)
    requires o + |inner| <= |s| && s[o .. o + |inner|] == inner && a + m <= |inner|
    ensures s[o + a .. o + a + m] == inner[a .. a + m]
  {
    var piece, part := s[o + a .. o + a + m], inner[a .. a + m];
    forall i | 0 <= i < m
      ensures piece[i] == part[i]
    {
      assert inner[a + i] == s[o .. o + |inner|][a + i];
    }
  }

  lemma Vec3Codec() ensures forall v :: AsVec3(FromVec3(v)) == v {}
  lemma Vec2Codec() ensures forall v :: AsVec2(FromVec2(v)) == v {}
  lemma ColorCodec() ensures forall c :: AsColor(FromColor(c)) == c {}
  lemma IndexCodec() ensures forall i :: AsIndex(FromIndex(i)) == i {}
  lemma EdgeCodec() ensures forall e :: AsEdge(FromEdge(e)) == e {}

  /** Where `load` looks for each buffer of a saved mesh is where `save` put it. */
  lemma SectionsOfEncoded(d: MeshData, g: Meta, base: nat, f: Flags)
    requires Sized(d)
    requires f.hasNormal == d.hasNormal && f.hasTexcoord == d.hasTexcoord
    requires f.hasTangentSpaceBasis == d.hasTangentSpaceBasis && f.hasColor == d.hasColor
    ensures var o := SectionsOf(Layout(FileMeta(d, g), f, base));
      o.normals == base + PayloadLength(d, 1) && o.texcoords == base + PayloadLength(d, 2)
      && o.tangents == base + PayloadLength(d, 3) && o.bitangents == base + PayloadLength(d, 4)
      && o.colors == base + PayloadLength(d, 5) && o.indexes == base + PayloadLength(d, 6)
      && o.edges == base + PayloadLength(d, 7)
  {
  }

  /** A stream holding a saved mesh after `pre` and before `rest`. */
  function SavedStream(d: MeshData, g: Meta, pre: seq<Cell>, rest: seq<Cell>): seq<Cell>
  {
    pre + Encode(d, g) + rest
  }

  /** The layout `load` decodes there, the seek taken from the start of the mesh. */
  function SavedLayout(d: MeshData, g: Meta, pre: seq<Cell>, p: MeshData): Layout
  {
    Layout(FileMeta(d, g), SavedFlags(d, FlagsOf(p), g), |pre| + HeaderCells + MetaCells)
  }

  /** The positions of a saved mesh are read back. */
  lemma PositionsReadBack(d: MeshData, g: Meta, pre: seq<Cell>, rest: seq<Cell>, p: MeshData)
    requires Sized(d)
    ensures Loaded(SavedStream(d, g, pre, rest), SavedLayout(d, g, pre, p), p).vertices == d.vertices
  {
    SectionsOfEncoded(d, g, |pre| + HeaderCells + MetaCells, SavedFlags(d, FlagsOf(p), g));
    Vec3Codec();
    SegmentReadBack(d, g, pre, rest, 0, FromVec3, AsVec3, d.vertices);
  }

  /** The normals of a saved mesh are read back. */
  lemma NormalsReadBack(d: MeshData, g: Meta, pre: seq<Cell>, rest: seq<Cell>, p: MeshData)
    requires Sized(d)
    ensures Loaded(SavedStream(d, g, pre, rest), SavedLayout(d, g, pre, p), p).normals == d.normals
  {
    SectionsOfEncoded(d, g, |pre| + HeaderCells + MetaCells, SavedFlags(d, FlagsOf(p), g));
    if d.hasNormal {
      Vec3Codec();
      SegmentReadBack(d, g, pre, rest, 1, FromVec3, AsVec3, d.normals);
    }
  }

  /** The UV sets of a saved mesh are read back. */
  lemma TexcoordsReadBack(d: MeshData, g: Meta, pre: seq<Cell>, rest: seq<Cell>, p: MeshData)
    requires Sized(d)
    ensures Loaded(SavedStream(d, g, pre, rest), SavedLayout(d, g, pre, p), p).texcoords == d.texcoords
  {
    SectionsOfEncoded(d, g, |pre| + HeaderCells + MetaCells, SavedFlags(d, FlagsOf(p), g));
    if d.hasTexcoord {
      Vec2Codec();
      SegmentReadBack(d, g, pre, rest, 2, FromVec2, AsVec2, d.texcoords);
    }
  }

  /** The tangents of a saved mesh are read back. */
  lemma TangentsReadBack(d: MeshData, g: Meta, pre: seq<Cell>, rest: seq<Cell>, p: MeshData)
    requires Sized(d)
    ensures Loaded(SavedStream(d, g, pre, rest), SavedLayout(d, g, pre, p), p).tangents == d.tangents
  {
    SectionsOfEncoded(d, g, |pre| + HeaderCells + MetaCells, SavedFlags(d, FlagsOf(p), g));
    if d.hasTangentSpaceBasis {
      Vec3Codec();
      SegmentReadBack(d, g, pre, rest, 3, FromVec3, AsVec3, d.tangents);
    }
  }

  /** The bitangents of a saved mesh are read back. */
  lemma BitangentsReadBack(d: MeshData, g: Meta, pre: seq<Cell>, rest: seq<Cell>, p: MeshData)
    requires Sized(d)
    ensures Loaded(SavedStream(d, g, pre, rest), SavedLayout(d, g, pre, p), p).bitangents == d.bitangents
  {
    SectionsOfEncoded(d, g, |pre| + HeaderCells + MetaCells, SavedFlags(d, FlagsOf(p), g));
    if d.hasTangentSpaceBasis {
      Vec3Codec();
      SegmentReadBack(d, g, pre, rest, 4, FromVec3, AsVec3, d.bitangents);
    }
  }

  /** The colours of a saved mesh are read back. */
  lemma ColorsReadBack(d: MeshData, g: Meta, pre: seq<Cell>, rest: seq<Cell>, p: MeshData)
    requires Sized(d)
    ensures Loaded(SavedStream(d, g, pre, rest), SavedLayout(d, g, pre, p), p).colors == d.colors
  {
    SectionsOfEncoded(d, g, |pre| + HeaderCells + MetaCells, SavedFlags(d, FlagsOf(p), g));
    if d.hasColor {
      ColorCodec();
      SegmentReadBack(d, g, pre, rest, 5, FromColor, AsColor, d.colors);
    }
  }

  /** The indexes of a saved mesh are read back. */
  lemma IndexesReadBack(d: MeshData, g: Meta, pre: seq<Cell>, rest: seq<Cell>, p: MeshData)
    requires Sized(d)
    ensures Loaded(SavedStream(d, g, pre, rest), SavedLayout(d, g, pre, p), p).indexes == d.indexes
  {
    SectionsOfEncoded(d, g, |pre| + HeaderCells + MetaCells, SavedFlags(d, FlagsOf(p), g));
    if d.indexCount > 0 {
      IndexCodec();
      SegmentReadBack(d, g, pre, rest, 6, FromIndex, AsIndex, d.indexes);
    }
  }

  /** The edges `load` ends with after a saved mesh. */
  lemma EdgesReadBack(d: MeshData, g: Meta, pre: seq<Cell>, rest: seq<Cell>, p: MeshData)
    requires Sized(d)
    ensures Loaded(SavedStream(d, g, pre, rest), SavedLayout(d, g, pre, p), p).edges == Reloaded(d, p, g, rest).edges
  {
    if Wireframe(d) {
      WireEdgesReadBack(d, g, pre, rest, p);
    } else {
      TrailingEdgesReadBack(d, g, pre, rest, p);
    }
  }

  /** A saved wireframe is read back as its first `edgeCount` edges. */
  lemma WireEdgesReadBack(d: MeshData, g: Meta, pre: seq<Cell>, rest: seq<Cell>, p: MeshData)
    requires Sized(d) && Wireframe(d)
    ensures Loaded(SavedStream(d, g, pre, rest), SavedLayout(d, g, pre, p), p).edges == d.edges[..d.edgeCount]
  {
    SectionsOfEncoded(d, g, |pre| + HeaderCells + MetaCells, SavedFlags(d, FlagsOf(p), g));
    EdgeCodec();
    SegmentReadBack(d, g, pre, rest, 7, FromEdge, AsEdge, d.edges[..d.edgeCount]);
  }

  /** Without a wireframe, the edges are `p`'s, or read from what follows the file when `p` counts edges. */
  lemma TrailingEdgesReadBack(d: MeshData, g: Meta, pre: seq<Cell>, rest: seq<Cell>, p: MeshData)
    requires Sized(d) && !Wireframe(d)
    ensures Loaded(SavedStream(d, g, pre, rest), SavedLayout(d, g, pre, p), p).edges
         == if p.edgeCount > 0 then Decoded(AsEdge, CellsAt(rest, 0, g.edgeCount)) else p.edges
  {
    TrailingEdges(d, g, pre, rest, p);
  }

  /** Without a wireframe, a mesh with edges reads the metadata's edge count of edges from what follows. */
  lemma TrailingEdges(d: MeshData, g: Meta, pre: seq<Cell>, rest: seq<Cell>, p: MeshData)
    requires Sized(d) && !Wireframe(d)
    ensures SectionsOf(SavedLayout(d, g, pre, p)).edges == |pre + Encode(d, g)|
    ensures CellsAt(SavedStream(d, g, pre, rest), |pre + Encode(d, g)|, g.edgeCount) == CellsAt(rest, 0, g.edgeCount)
  {
    SectionsOfEncoded(d, g, |pre| + HeaderCells + MetaCells, SavedFlags(d, FlagsOf(p), g));
    PayloadUpToLength(d, 8);
    CellsAfter(pre + Encode(d, g), rest, 0, g.edgeCount);
  }

  /** The counts, flags, box, grab boundary and attachment state of a saved mesh read back as `Reloaded` says. */
  lemma ScalarsReadBack(d: MeshData, g: Meta, pre: seq<Cell>, s: seq<Cell>, rest: seq<Cell>, p: MeshData)
    ensures var a := Loaded(s, SavedLayout(d, g, pre, p), p);
            var b := Reloaded(d, p, g, rest);
            a.vertexCount == b.vertexCount && a.uvCount == b.uvCount && a.indexCount == b.indexCount && a.edgeCount == b.edgeCount
            && a.hasNormal == b.hasNormal && a.hasTexcoord == b.hasTexcoord && a.hasTangentSpaceBasis == b.hasTangentSpaceBasis
            && a.hasBoundingBox == b.hasBoundingBox && a.hasColor == b.hasColor && a.hasLightmap == b.hasLightmap
            && a.hasRefmap == b.hasRefmap && a.hasGrabBoundary == b.hasGrabBoundary
            && a.bbox == b.bbox && a.grabBoundary == b.grabBoundary
            && a.lightmapTrunkUid == b.lightmapTrunkUid && a.refmapTrunkUid == b.refmapTrunkUid
  {
  }

  /** Two snapshots that agree on every field are equal. */
  lemma SameFields(a: MeshData, b: MeshData)
    requires a.vertexCount == b.vertexCount && a.uvCount == b.uvCount && a.indexCount == b.indexCount && a.edgeCount == b.edgeCount
    requires a.hasNormal == b.hasNormal && a.hasTexcoord == b.hasTexcoord && a.hasTangentSpaceBasis == b.hasTangentSpaceBasis
    requires a.hasBoundingBox == b.hasBoundingBox && a.hasColor == b.hasColor && a.hasLightmap == b.hasLightmap
    requires a.hasRefmap == b.hasRefmap && a.hasGrabBoundary == b.hasGrabBoundary
    requires a.vertices == b.vertices && a.normals == b.normals && a.texcoords == b.texcoords
    requires a.tangents == b.tangents && a.bitangents == b.bitangents && a.colors == b.colors
    requires a.indexes == b.indexes && a.edges == b.edges
    requires a.bbox == b.bbox && a.grabBoundary == b.grabBoundary
    requires a.lightmapTrunkUid == b.lightmapTrunkUid && a.refmapTrunkUid == b.refmapTrunkUid
    ensures a == b
  {
  }

  /**
   * Save then load, the mesh starting at `|pre|` of the stream and the seek
   * taken from there: the mesh comes back as `Reloaded` says.
   */
  lemma SaveLoadRoundTrip(d: MeshData, g: Meta, pre: seq<Cell>, rest: seq<Cell>, p: MeshData, g2: Meta)
    requires Sized(d)
    ensures Decode(pre + Encode(d, g) + rest, |pre|, p, g2, |pre|) == Reloaded(d, p, g, rest)
  {
    LayoutOfEncoded(d, g, pre, rest, FlagsOf(p), g2, |pre|);
    var r := Loaded(SavedStream(d, g, pre, rest), SavedLayout(d, g, pre, p), p);
    ScalarsReadBack(d, g, pre, SavedStream(d, g, pre, rest), rest, p);
    PositionsReadBack(d, g, pre, rest, p);
    NormalsReadBack(d, g, pre, rest, p);
    TexcoordsReadBack(d, g, pre, rest, p);
    TangentsReadBack(d, g, pre, rest, p);
    BitangentsReadBack(d, g, pre, rest, p);
    ColorsReadBack(d, g, pre, rest, p);
    IndexesReadBack(d, g, pre, rest, p);
    EdgesReadBack(d, g, pre, rest, p);
    SameFields(r, Reloaded(d, p, g, rest));
  }

  /** A mesh saved at the start of a stream is loaded back by `load` as written, whose seek is absolute. */
  lemma SaveLoadFromStart(d: MeshData, g: Meta, rest: seq<Cell>, p: MeshData, g2: Meta)
    requires Sized(d)
    ensures Decode(Encode(d, g) + rest, 0, p, g2, 0) == Reloaded(d, p, g, rest)
  {
    SaveLoadRoundTrip(d, g, [], rest, p, g2);
    assert [] + Encode(d, g) + rest == Encode(d, g) + rest;
  }

  /** The cells of a header and a metadata record hold no vector. */
  lemma NoVectorInHeader(h: Header, m: Meta, i: nat)
    requires i < HeaderCells + MetaCells
    ensures !(HeaderCellsOf(h) + MetaCellsOf(m))[i].V3?
  {
    if i >= HeaderCells {
      assert (HeaderCellsOf(h) + MetaCellsOf(m))[i] == MetaCellsOf(m)[i - HeaderCells];
    }
  }

  /**
   * `load` as written, on a mesh saved after `pre` with 0 < |pre| <= 14 cells:
   * the absolute seek lands inside the header or metadata, so the first
   * position is read from a cell that holds no vector and comes back as zero.
   */
  lemma AbsoluteSeekMisreads(d: MeshData, g: Meta, pre: seq<Cell>, rest: seq<Cell>, p: MeshData, g2: Meta)
    requires Sized(d) && d.vertexCount > 0
    requires 0 < |pre| <= HeaderCells + MetaCells
    ensures Decode(pre + Encode(d, g) + rest, |pre|, p, g2, 0).vertices[0] == Zero3
  {
    var s := pre + Encode(d, g) + rest;
    var hm := HeaderCellsOf(FileHeader(d)) + MetaCellsOf(FileMeta(d, g));
    LayoutOfEncoded(d, g, pre, rest, FlagsOf(p), g2, 0);
    assert Decode(s, |pre|, p, g2, 0).vertices[0] == AsVec3(CellAt(s, HeaderCells + MetaCells));
    var i := HeaderCells + MetaCells - |pre|;
    assert Encode(d, g) == hm + PayloadCells(d);
    assert s[HeaderCells + MetaCells] == hm[i];
    NoVectorInHeader(FileHeader(d), FileMeta(d, g), i);
  }

  /** So a mesh saved after one cell, with a first position other than zero, does not load back. */
  lemma AbsoluteSeekLosesPositions(d: MeshData, g: Meta, c: Cell, rest: seq<Cell>, p: MeshData, g2: Meta)
    requires Sized(d) && d.vertexCount > 0 && d.vertices[0] != Zero3
    ensures Decode([c] + Encode(d, g) + rest, 1, p, g2, 0) != Reloaded(d, p, g, rest)
  {
    AbsoluteSeekMisreads(d, g, [c], rest, p, g2);
  }

  /** `load` never reads the lightmap or refmap: the mesh keeps its own attachment state. */
  lemma LoadKeepsAttachments(s: seq<Cell>, start: nat, p: MeshData, meta: Meta, origin: nat)
    ensures var r := Decode(s, start, p, meta, origin);
      r.hasLightmap == p.hasLightmap && r.hasRefmap == p.hasRefmap
      && r.lightmapTrunkUid == p.lightmapTrunkUid && r.refmapTrunkUid == p.refmapTrunkUid
  {
  }

  /** A stream without the mesh tag is read as a legacy file: one UV set, no indexes, flags unchanged, payload after three words. */
  lemma LegacyLayout(s: seq<Cell>, start: nat, prior: Flags, meta: Meta, origin: nat)
    requires HeaderAt(s, start).formatTag != MeshTag
    ensures var l := LayoutOf(s, start, prior, meta, origin);
      l.meta.vertexCount == AsWord(CellAt(s, start)) && l.meta.uvCount == 1 && l.meta.indexCount == 0
      && l.flags == prior && l.payload == start + HeaderCells
  {
  }
}
