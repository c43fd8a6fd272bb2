// The Wavefront OBJ writer: every triangle of a mesh written out unshared,
// as a block of `v` lines, then `vt` lines, then `vn` lines, then one `f`
// line per triangle whose three references all point at the triangle's own
// three lines of each block.
module ObjWriter {
  import opened Base
  import opened MeshTypes
  import opened Meshes
  import opened ObjText
  import opened ObjReader

  /** The three corner values `getVertex`, `getNormal` and `getUV` hand out for one triangle. */
  type Tri3 = (Vec3, Vec3, Vec3)
  type Tri2 = (Vec2, Vec2, Vec2)

  /**
   * One written line: `v x y z`, `vt u v`, `vn x y z`, or `f a/a/a b/b/b c/c/c`
   * with the 1-based numbers `refs`.
   */
  datatype ObjLine = VertexLine(p: Vec3) | TexcoordLine(uv: Vec2) | NormalLine(n: Vec3) | FaceLine(refs: seq<nat>)

  /** The text of one `writeText` call. */
  type Chunk = seq<ObjLine>

  function VertexChunk(t: Tri3): Chunk
  {
    [VertexLine(t.0), VertexLine(t.1), VertexLine(t.2)]
  }

  function TexcoordChunk(t: Tri2): Chunk
  {
    [TexcoordLine(t.0), TexcoordLine(t.1), TexcoordLine(t.2)]
  }

  function NormalChunk(t: Tri3): Chunk
  {
    [NormalLine(t.0), NormalLine(t.1), NormalLine(t.2)]
  }

  /** The face line of triangle `i`: corners `3i+1`, `3i+2`, `3i+3` of every block. */
  function FaceChunk(i: nat): Chunk
  {
    [FaceLine([3 * i + 1, 3 * i + 2, 3 * i + 3])]
  }

  // ---- sequences ----

  function Map<X, Y>(xs: seq<X>, f: X -> Y): (r: seq<Y>)
    ensures |r| == |xs| && forall i :: 0 <= i < |xs| ==> r[i] == f(xs[i])
  {
    seq(|xs|, i requires 0 <= i < |xs| => f(xs[i]))
  }

  lemma MapAppend<X, Y>(a: seq<X>, b: seq<X>, f: X -> Y)
    ensures Map(a + b, f) == Map(a, f) + Map(b, f)
  {
    assert forall i :: 0 <= i < |a + b| ==> Map(a + b, f)[i] == (Map(a, f) + Map(b, f))[i];
  }

  lemma MapPrefixNext<X, Y>(xs: seq<X>, i: nat, f: X -> Y)
    requires i < |xs|
    ensures Map(xs[..i + 1], f) == Map(xs[..i], f) + [f(xs[i])]
  {
    assert xs[..i + 1] == xs[..i] + [xs[i]];
    MapAppend(xs[..i], [xs[i]], f);
  }

  /** `0, 1, …, n - 1`. */
  function Range(n: nat): (r: seq<nat>)
    ensures |r| == n && forall i :: 0 <= i < n ==> r[i] == i
  {
    seq(n, i requires 0 <= i < n => i)
  }

  /** The sequences one after another. */
  function Flatten<T>(xss: seq<seq<T>>): seq<T>
    decreases |xss|
  {
    if xss == [] then [] else Flatten(xss[..|xss| - 1]) + xss[|xss| - 1]
  }

  lemma {:induction false} FlattenAppend<T>(a: seq<seq<T>>, b: seq<seq<T>>)
    ensures Flatten(a + b) == Flatten(a) + Flatten(b)
    decreases |b|
  {
    if b == [] {
      assert a + b == a;
    } else {
      var init := b[..|b| - 1];
      assert (a + b)[..|a + b| - 1] == a + init;
      FlattenAppend(a, init);
    }
  }

  /** Sequences of three, flattened: element `k` of sequence `i` sits at `3i + k`. */
  lemma {:induction false} FlattenTriples<T>(xss: seq<seq<T>>)
    requires forall i :: 0 <= i < |xss| ==> |xss[i]| == 3
    ensures |Flatten(xss)| == 3 * |xss|
    ensures forall i, k :: 0 <= i < |xss| && 0 <= k < 3 ==> Flatten(xss)[3 * i + k] == xss[i][k]
    decreases |xss|
  {
    if xss != [] {
      FlattenTriples(xss[..|xss| - 1]);
    }
  }

  // ---- the file ----

  /**
   * The chunks `writeMesh` writes for triangles with corner positions `ps`,
   * texcoords `ts` and normals `ns`: one chunk per triangle in each block.
   */
  function ObjFile(ps: seq<Tri3>, ts: seq<Tri2>, ns: seq<Tri3>): seq<Chunk>
    requires |ps| == |ts| == |ns|
  {
    Map(ps, VertexChunk) + Map(ts, TexcoordChunk) + Map(ns, NormalChunk) + Map(Range(|ps|), FaceChunk)
  }

  /** The lines of the file, in order. */
  function Lines(file: seq<Chunk>): seq<ObjLine>
  {
    Flatten(file)
  }

  /** What a line adds to one of the reader's pools. */
  function VertexPick(l: ObjLine): seq<Vec3> { if l.VertexLine? then [l.p] else [] }
  function TexcoordPick(l: ObjLine): seq<Vec2> { if l.TexcoordLine? then [l.uv] else [] }
  function NormalPick(l: ObjLine): seq<Vec3> { if l.NormalLine? then [l.n] else [] }
  function FacePick(l: ObjLine): seq<seq<nat>> { if l.FaceLine? then [l.refs] else [] }

  /** The entries a reader collects from lines, in order: one per line that `pick` takes. */
  function Pool<T>(lines: seq<ObjLine>, pick: ObjLine -> seq<T>): seq<T>
  {
    Flatten(Map(lines, pick))
  }

  /** The corners of each triangle, one after another. */
  function Points3(t: Tri3): seq<Vec3> { [t.0, t.1, t.2] }
  function Points2(t: Tri2): seq<Vec2> { [t.0, t.1, t.2] }

  lemma PoolAppend<T>(a: seq<ObjLine>, b: seq<ObjLine>, pick: ObjLine -> seq<T>)
    ensures Pool(a + b, pick) == Pool(a, pick) + Pool(b, pick)
  {
    MapAppend(a, b, pick);
    FlattenAppend(Map(a, pick), Map(b, pick));
  }

  lemma PoolOne<T>(l: ObjLine, pick: ObjLine -> seq<T>)
    ensures Pool([l], pick) == pick(l)
  {
    assert Map([l], pick) == [pick(l)];
    assert [pick(l)][..0] == [];
    assert Flatten([pick(l)]) == Flatten([pick(l)][..0]) + pick(l);
  }

  lemma PoolThree<T>(a: ObjLine, b: ObjLine, c: ObjLine, pick: ObjLine -> seq<T>)
    ensures Pool([a, b, c], pick) == pick(a) + pick(b) + pick(c)
  {
    PoolOne(a, pick);
    PoolOne(b, pick);
    PoolOne(c, pick);
    PoolAppend([a], [b], pick);
    assert [a] + [b] == [a, b];
    PoolAppend([a, b], [c], pick);
    assert [a, b] + [c] == [a, b, c];
  }

  /** The pool of chunks made from `xs`, from what each chunk contributes. */
  lemma {:induction false} PoolOfChunks<X, T>(xs: seq<X>, chunk: X -> Chunk, pick: ObjLine -> seq<T>, part: X -> seq<T>)
    requires forall x :: Pool(chunk(x), pick) == part(x)
    ensures Pool(Flatten(Map(xs, chunk)), pick) == Flatten(Map(xs, part))
    decreases |xs|
  {
    if xs != [] {
      var init, x := xs[..|xs| - 1], xs[|xs| - 1];
      PoolOfChunks(init, chunk, pick, part);
      assert Map(xs, chunk)[..|xs| - 1] == Map(init, chunk);
      assert Map(xs, part)[..|xs| - 1] == Map(init, part);
      PoolAppend(Flatten(Map(init, chunk)), chunk(x), pick);
    }
  }

  /** Chunks none of whose lines `pick` takes add nothing to the pool. */
  lemma {:induction false} PoolOfChunksEmpty<X, T>(xs: seq<X>, chunk: X -> Chunk, pick: ObjLine -> seq<T>)
    requires forall x :: Pool(chunk(x), pick) == []
    ensures Pool(Flatten(Map(xs, chunk)), pick) == []
    decreases |xs|
  {
    if xs != [] {
      var init, x := xs[..|xs| - 1], xs[|xs| - 1];
      PoolOfChunksEmpty(init, chunk, pick);
      assert Map(xs, chunk)[..|xs| - 1] == Map(init, chunk);
      PoolAppend(Flatten(Map(init, chunk)), chunk(x), pick);
    }
  }

  /** The pool of the whole file: the pools of its four blocks in order. */
  lemma PoolOfFile<T>(ps: seq<Tri3>, ts: seq<Tri2>, ns: seq<Tri3>, pick: ObjLine -> seq<T>)
    requires |ps| == |ts| == |ns|
    ensures Pool(Lines(ObjFile(ps, ts, ns)), pick)
         == Pool(Flatten(Map(ps, VertexChunk)), pick) + Pool(Flatten(Map(ts, TexcoordChunk)), pick)
          + Pool(Flatten(Map(ns, NormalChunk)), pick) + Pool(Flatten(Map(Range(|ps|), FaceChunk)), pick)
  {
    var a, b, c, d := Map(ps, VertexChunk), Map(ts, TexcoordChunk), Map(ns, NormalChunk), Map(Range(|ps|), FaceChunk);
    FlattenAppend(a + b + c, d);
    FlattenAppend(a + b, c);
    FlattenAppend(a, b);
    PoolAppend(Flatten(a) + Flatten(b) + Flatten(c), Flatten(d), pick);
    PoolAppend(Flatten(a) + Flatten(b), Flatten(c), pick);
    PoolAppend(Flatten(a), Flatten(b), pick);
  }

  function FaceRefs(i: nat): seq<nat> { [3 * i + 1, 3 * i + 2, 3 * i + 3] }
  function FaceRefPart(i: nat): seq<seq<nat>> { [FaceRefs(i)] }

  /** What each kind of chunk adds to the vertex pool. */
  lemma VertexPicks()
    ensures forall t: Tri3 :: Pool(VertexChunk(t), VertexPick) == Points3(t)
    ensures forall t: Tri2 :: Pool(TexcoordChunk(t), VertexPick) == []
    ensures forall t: Tri3 :: Pool(NormalChunk(t), VertexPick) == []
    ensures forall i: nat :: Pool(FaceChunk(i), VertexPick) == []
  {
    forall t: Tri3 ensures Pool(VertexChunk(t), VertexPick) == Points3(t) && Pool(NormalChunk(t), VertexPick) == [] {
      PoolThree(VertexLine(t.0), VertexLine(t.1), VertexLine(t.2), VertexPick);
      PoolThree(NormalLine(t.0), NormalLine(t.1), NormalLine(t.2), VertexPick);
    }
    forall t: Tri2 ensures Pool(TexcoordChunk(t), VertexPick) == [] {
      PoolThree(TexcoordLine(t.0), TexcoordLine(t.1), TexcoordLine(t.2), VertexPick);
    }
    forall i: nat ensures Pool(FaceChunk(i), VertexPick) == [] {
      PoolOne(FaceLine(FaceRefs(i)), VertexPick);
    }
  }

  /** What each kind of chunk adds to the texcoord pool. */
  lemma TexcoordPicks()
    ensures forall t: Tri3 :: Pool(VertexChunk(t), TexcoordPick) == []
    ensures forall t: Tri2 :: Pool(TexcoordChunk(t), TexcoordPick) == Points2(t)
    ensures forall t: Tri3 :: Pool(NormalChunk(t), TexcoordPick) == []
    ensures forall i: nat :: Pool(FaceChunk(i), TexcoordPick) == []
  {
    forall t: Tri3 ensures Pool(VertexChunk(t), TexcoordPick) == [] && Pool(NormalChunk(t), TexcoordPick) == [] {
      PoolThree(VertexLine(t.0), VertexLine(t.1), VertexLine(t.2), TexcoordPick);
      PoolThree(NormalLine(t.0), NormalLine(t.1), NormalLine(t.2), TexcoordPick);
    }
    forall t: Tri2 ensures Pool(TexcoordChunk(t), TexcoordPick) == Points2(t) {
      PoolThree(TexcoordLine(t.0), TexcoordLine(t.1), TexcoordLine(t.2), TexcoordPick);
    }
    forall i: nat ensures Pool(FaceChunk(i), TexcoordPick) == [] {
      PoolOne(FaceLine(FaceRefs(i)), TexcoordPick);
    }
  }

  /** What each kind of chunk adds to the normal pool. */
  lemma NormalPicks()
    ensures forall t: Tri3 :: Pool(VertexChunk(t), NormalPick) == []
    ensures forall t: Tri2 :: Pool(TexcoordChunk(t), NormalPick) == []
    ensures forall t: Tri3 :: Pool(NormalChunk(t), NormalPick) == Points3(t)
    ensures forall i: nat :: Pool(FaceChunk(i), NormalPick) == []
  {
    forall t: Tri3 ensures Pool(VertexChunk(t), NormalPick) == [] && Pool(NormalChunk(t), NormalPick) == Points3(t) {
      PoolThree(VertexLine(t.0), VertexLine(t.1), VertexLine(t.2), NormalPick);
      PoolThree(NormalLine(t.0), NormalLine(t.1), NormalLine(t.2), NormalPick);
    }
    forall t: Tri2 ensures Pool(TexcoordChunk(t), NormalPick) == [] {
      PoolThree(TexcoordLine(t.0), TexcoordLine(t.1), TexcoordLine(t.2), NormalPick);
    }
    forall i: nat ensures Pool(FaceChunk(i), NormalPick) == [] {
      PoolOne(FaceLine(FaceRefs(i)), NormalPick);
    }
  }

  /** What each kind of chunk adds to the face pool. */
  lemma FacePicks()
    ensures forall t: Tri3 :: Pool(VertexChunk(t), FacePick) == []
    ensures forall t: Tri2 :: Pool(TexcoordChunk(t), FacePick) == []
    ensures forall t: Tri3 :: Pool(NormalChunk(t), FacePick) == []
    ensures forall i: nat :: Pool(FaceChunk(i), FacePick) == FaceRefPart(i)
  {
    forall t: Tri3 ensures Pool(VertexChunk(t), FacePick) == [] && Pool(NormalChunk(t), FacePick) == [] {
      PoolThree(VertexLine(t.0), VertexLine(t.1), VertexLine(t.2), FacePick);
      PoolThree(NormalLine(t.0), NormalLine(t.1), NormalLine(t.2), FacePick);
    }
    forall t: Tri2 ensures Pool(TexcoordChunk(t), FacePick) == [] {
      PoolThree(TexcoordLine(t.0), TexcoordLine(t.1), TexcoordLine(t.2), FacePick);
    }
    forall i: nat ensures Pool(FaceChunk(i), FacePick) == FaceRefPart(i) {
      PoolOne(FaceLine(FaceRefs(i)), FacePick);
    }
  }

  /** The `v` lines of a written file: the corner positions of the triangles in order. */
  lemma VertexPoolOfFile(ps: seq<Tri3>, ts: seq<Tri2>, ns: seq<Tri3>)
    requires |ps| == |ts| == |ns|
    ensures Pool(Lines(ObjFile(ps, ts, ns)), VertexPick) == Flatten(Map(ps, Points3))
  {
    PoolOfFile(ps, ts, ns, VertexPick);
    VertexPicks();
    PoolOfChunks(ps, VertexChunk, VertexPick, Points3);
    PoolOfChunksEmpty(ts, TexcoordChunk, VertexPick);
    PoolOfChunksEmpty(ns, NormalChunk, VertexPick);
    PoolOfChunksEmpty(Range(|ps|), FaceChunk, VertexPick);
  }

  /** The `vt` lines of a written file: the corner texcoords of the triangles in order. */
  lemma TexcoordPoolOfFile(ps: seq<Tri3>, ts: seq<Tri2>, ns: seq<Tri3>)
    requires |ps| == |ts| == |ns|
    ensures Pool(Lines(ObjFile(ps, ts, ns)), TexcoordPick) == Flatten(Map(ts, Points2))
  {
    PoolOfFile(ps, ts, ns, TexcoordPick);
    TexcoordPicks();
    PoolOfChunksEmpty(ps, VertexChunk, TexcoordPick);
    PoolOfChunks(ts, TexcoordChunk, TexcoordPick, Points2);
    PoolOfChunksEmpty(ns, NormalChunk, TexcoordPick);
    PoolOfChunksEmpty(Range(|ps|), FaceChunk, TexcoordPick);
  }

  /** The `vn` lines of a written file: the corner normals of the triangles in order. */
  lemma NormalPoolOfFile(ps: seq<Tri3>, ts: seq<Tri2>, ns: seq<Tri3>)
    requires |ps| == |ts| == |ns|
    ensures Pool(Lines(ObjFile(ps, ts, ns)), NormalPick) == Flatten(Map(ns, Points3))
  {
    PoolOfFile(ps, ts, ns, NormalPick);
    NormalPicks();
    PoolOfChunksEmpty(ps, VertexChunk, NormalPick);
    PoolOfChunksEmpty(ts, TexcoordChunk, NormalPick);
    PoolOfChunks(ns, NormalChunk, NormalPick, Points3);
    PoolOfChunksEmpty(Range(|ps|), FaceChunk, NormalPick);
  }

  /** The `f` lines of a written file: triangle `i`'s references `3i+1`, `3i+2`, `3i+3`, in order. */
  lemma FacePoolOfFile(ps: seq<Tri3>, ts: seq<Tri2>, ns: seq<Tri3>)
    requires |ps| == |ts| == |ns|
    ensures var faces := Pool(Lines(ObjFile(ps, ts, ns)), FacePick);
      |faces| == |ps| && forall i :: 0 <= i < |ps| ==> faces[i] == FaceRefs(i)
  {
    PoolOfFile(ps, ts, ns, FacePick);
    FacePicks();
    PoolOfChunksEmpty(ps, VertexChunk, FacePick);
    PoolOfChunksEmpty(ts, TexcoordChunk, FacePick);
    PoolOfChunksEmpty(ns, NormalChunk, FacePick);
    PoolOfChunks(Range(|ps|), FaceChunk, FacePick, FaceRefPart);
    FlattenSingles(Map(Range(|ps|), FaceRefPart));
  }

  lemma {:induction false} FlattenSingles<T>(xss: seq<seq<T>>)
    requires forall i :: 0 <= i < |xss| ==> |xss[i]| == 1
    ensures |Flatten(xss)| == |xss| && forall i :: 0 <= i < |xss| ==> Flatten(xss)[i] == xss[i][0]
    decreases |xss|
  {
    if xss != [] {
      FlattenSingles(xss[..|xss| - 1]);
    }
  }

  // ---- reading it back ----

  /** What the reader's lexer yields for the written reference `n/n/n`. */
  function WrittenRef(n: nat): Token
  {
    Reference(Ref(n, Given(n), Given(n)))
  }

  /**
   * The reader's scan of a written face line: a triangle it accepts, whether
   * it is the object's first face (which then gives the object texcoords and
   * normals) or a later face of an object that has both; every reference
   * holds its number in all three slots.
   */
  lemma WrittenFaceScan(i: nat)
    ensures var f := FaceOf(Map(FaceRefs(i), WrittenRef), i > 0, i > 0, i == 0);
      Accepted(f) && f.objTex && f.objNorm
      && f.refs == [Ref(3 * i + 1, Given(3 * i + 1), Given(3 * i + 1)), Ref(3 * i + 2, Given(3 * i + 2), Given(3 * i + 2)),
                    Ref(3 * i + 3, Given(3 * i + 3), Given(3 * i + 3))]
  {
    var tokens := Map(FaceRefs(i), WrittenRef);
    var s0 := StartScan(i > 0, i > 0);
    assert tokens[..0] == [];
    ScanPrefixNext(Corrected, tokens, 0, s0, i == 0);
    ScanPrefixNext(Corrected, tokens, 1, s0, i == 0);
    ScanPrefixNext(Corrected, tokens, 2, s0, i == 0);
    assert tokens[..3] == tokens;
  }

  /** Entry `3i + k` of a pool of triangle corners is corner `k` of triangle `i`. */
  lemma CornerEntries<T>(ts: seq<(T, T, T)>, pool: seq<T>, points: ((T, T, T)) -> seq<T>, i: nat)
    requires i < |ts| && pool == Flatten(Map(ts, points))
    requires forall t :: points(t) == [t.0, t.1, t.2]
    ensures |pool| == 3 * |ts| && pool[3 * i] == ts[i].0 && pool[3 * i + 1] == ts[i].1 && pool[3 * i + 2] == ts[i].2
  {
    var xss := Map(ts, points);
    FlattenTriples(xss);
    assert xss[i] == [ts[i].0, ts[i].1, ts[i].2];
    assert pool[3 * i + 0] == xss[i][0] && pool[3 * i + 1] == xss[i][1] && pool[3 * i + 2] == xss[i][2];
  }

  /** The `v` lines a written face `i` points at: triangle `i`'s corner positions. */
  lemma WrittenVertexCorners(ps: seq<Tri3>, ts: seq<Tri2>, ns: seq<Tri3>, i: nat)
    requires |ps| == |ts| == |ns| && i < |ps|
    ensures var pool := Pool(Lines(ObjFile(ps, ts, ns)), VertexPick);
      |pool| == 3 * |ps| && pool[3 * i] == ps[i].0 && pool[3 * i + 1] == ps[i].1 && pool[3 * i + 2] == ps[i].2
  {
    VertexPoolOfFile(ps, ts, ns);
    CornerEntries(ps, Pool(Lines(ObjFile(ps, ts, ns)), VertexPick), Points3, i);
  }

  /** The `vt` lines a written face `i` points at: triangle `i`'s corner texcoords. */
  lemma WrittenTexcoordCorners(ps: seq<Tri3>, ts: seq<Tri2>, ns: seq<Tri3>, i: nat)
    requires |ps| == |ts| == |ns| && i < |ps|
    ensures var pool := Pool(Lines(ObjFile(ps, ts, ns)), TexcoordPick);
      |pool| == 3 * |ts| && pool[3 * i] == ts[i].0 && pool[3 * i + 1] == ts[i].1 && pool[3 * i + 2] == ts[i].2
  {
    TexcoordPoolOfFile(ps, ts, ns);
    CornerEntries(ts, Pool(Lines(ObjFile(ps, ts, ns)), TexcoordPick), Points2, i);
  }

  /** The `vn` lines a written face `i` points at: triangle `i`'s corner normals. */
  lemma WrittenNormalCorners(ps: seq<Tri3>, ts: seq<Tri2>, ns: seq<Tri3>, i: nat)
    requires |ps| == |ts| == |ns| && i < |ps|
    ensures var pool := Pool(Lines(ObjFile(ps, ts, ns)), NormalPick);
      |pool| == 3 * |ns| && pool[3 * i] == ns[i].0 && pool[3 * i + 1] == ns[i].1 && pool[3 * i + 2] == ns[i].2
  {
    NormalPoolOfFile(ps, ts, ns);
    CornerEntries(ns, Pool(Lines(ObjFile(ps, ts, ns)), NormalPick), Points3, i);
  }

  /**
   * Reading a written file back: face line `i` is a triangle the reader
   * accepts, and its references pick out exactly triangle `i`'s corner
   * positions, texcoords and normals from the pools the `v`, `vt` and `vn`
   * lines fill.
   */
  lemma WrittenFaceReadsBack(ps: seq<Tri3>, ts: seq<Tri2>, ns: seq<Tri3>, i: nat)
    requires |ps| == |ts| == |ns| && i < |ps|
    ensures var lines := Lines(ObjFile(ps, ts, ns));
      var faces := Pool(lines, FacePick);
      i < |faces| && faces[i] == FaceRefs(i)
      && var f := FaceOf(Map(faces[i], WrittenRef), i > 0, i > 0, i == 0);
      Accepted(f) && f.objTex && f.objNorm
      && VertexCorners(f.refs, Pool(lines, VertexPick)) == [ps[i].0, ps[i].1, ps[i].2]
      && TexcoordCorners(f.refs, Pool(lines, TexcoordPick)) == [ts[i].0, ts[i].1, ts[i].2]
      && NormalCorners(f.refs, Pool(lines, NormalPick)) == [ns[i].0, ns[i].1, ns[i].2]
  {
    FacePoolOfFile(ps, ts, ns);
    WrittenVertexCorners(ps, ts, ns, i);
    WrittenTexcoordCorners(ps, ts, ns, i);
    WrittenNormalCorners(ps, ts, ns, i);
    WrittenFaceScan(i);
  }

  // ---- the writer ----

  /** The corner positions of every triangle, as `getVertex` returns them. */
  ghost function Positions(mesh: Mesh): (r: seq<Tri3>)
    reads mesh, mesh.indexes, mesh.vertices
    requires mesh.Valid() && mesh.IndexesInRange()
    ensures |r| == mesh.TriangleCount() && forall i :: 0 <= i < |r| ==> r[i] == mesh.GetVertex(i)
  {
    seq(mesh.TriangleCount(), i requires 0 <= i < mesh.TriangleCount() && mesh.Valid() && mesh.IndexesInRange()
      reads mesh, mesh.indexes, mesh.vertices => mesh.GetVertex(i))
  }

  /** The corner texcoords of every triangle in set `k`, as `getUV` returns them into outputs holding `init`. */
  ghost function Texcoords(mesh: Mesh, k: nat, init: Tri2): (r: seq<Tri2>)
    reads mesh, mesh.indexes, mesh.texcoords
    requires mesh.Valid() && mesh.IndexesInRange()
    ensures |r| == mesh.TriangleCount() && forall i :: 0 <= i < |r| ==> r[i] == mesh.GetUV(k, i, init)
  {
    seq(mesh.TriangleCount(), i requires 0 <= i < mesh.TriangleCount() && mesh.Valid() && mesh.IndexesInRange()
      reads mesh, mesh.indexes, mesh.texcoords => mesh.GetUV(k, i, init))
  }

  /** The corner normals of every triangle, as `getNormal` returns them into outputs holding `init`. */
  ghost function Normals(mesh: Mesh, init: Tri3): (r: seq<Tri3>)
    reads mesh, mesh.indexes, mesh.normals
    requires mesh.Valid() && mesh.IndexesInRange()
    ensures |r| == mesh.TriangleCount() && forall i :: 0 <= i < |r| ==> r[i] == mesh.GetNormal(i, init)
  {
    seq(mesh.TriangleCount(), i requires 0 <= i < mesh.TriangleCount() && mesh.Valid() && mesh.IndexesInRange()
      reads mesh, mesh.indexes, mesh.normals => mesh.GetNormal(i, init))
  }

  /**
   * `writeMesh`: the chunks written to the file, four loops over the
   * triangles. `uvIndex` is the C++ `int` argument, converted to `uint` by
   * the call of `getUV`; `uvInit` and `normalInit` are the values the output
   * variables start with, which `getUV` and `getNormal` leave in place when
   * the mesh has no such data.
   */
  method WriteMesh(mesh: Mesh, uvIndex: int, uvInit: Tri2, normalInit: Tri3) returns (file: seq<Chunk>)
    requires mesh.Valid() && mesh.IndexesInRange()
    requires -(I32Half as int) <= uvIndex < I32Half as int
    ensures file == ObjFile(Positions(mesh), Texcoords(mesh, ToU32(uvIndex), uvInit), Normals(mesh, normalInit))
  {
    var n := mesh.TriangleCount();
    file := WriteVertices(mesh);
    var texcoords := WriteTexcoords(mesh, ToU32(uvIndex), uvInit);
    file := file + texcoords;
    var normals := WriteNormals(mesh, normalInit);
    file := file + normals;
    var faces := WriteFaces(n);
    file := file + faces;
  }

  /**
   * Without the requested UV set (no texcoords, no vertices, or `k` past the
   * last set) every triangle's `vt` lines repeat the outputs' initial values.
   */
  lemma MissingUVSetRepeatsInit(mesh: Mesh, k: nat, init: Tri2)
    requires mesh.Valid() && mesh.IndexesInRange() && !mesh.UVAccessible(k)
    ensures forall i :: 0 <= i < mesh.TriangleCount() ==> Texcoords(mesh, k, init)[i] == init
  {
  }

  /** The first loop: three `v` lines per triangle. */
  method WriteVertices(mesh: Mesh) returns (block: seq<Chunk>)
    requires mesh.Valid() && mesh.IndexesInRange()
    ensures block == Map(Positions(mesh), VertexChunk)
  {
    ghost var ps := Positions(mesh);
    block := [];
    for i := 0 to mesh.TriangleCount()
      invariant block == Map(ps[..i], VertexChunk)
    {
      var v := mesh.GetVertex(i);
      MapPrefixNext(ps, i, VertexChunk);
      block := block + [[VertexLine(v.0), VertexLine(v.1), VertexLine(v.2)]];
    }
    assert ps[..|ps|] == ps;
  }

  /** The second loop: three `vt` lines per triangle, `getUV` writing into the same outputs each time. */
  method WriteTexcoords(mesh: Mesh, k: nat, init: Tri2) returns (block: seq<Chunk>)
    requires mesh.Valid() && mesh.IndexesInRange()
    ensures block == Map(Texcoords(mesh, k, init), TexcoordChunk)
  {
    ghost var ts := Texcoords(mesh, k, init);
    var uv := init;
    block := [];
    for i := 0 to mesh.TriangleCount()
      invariant block == Map(ts[..i], TexcoordChunk)
      invariant !mesh.UVAccessible(k) ==> uv == init
    {
      uv := mesh.GetUV(k, i, uv);
      MapPrefixNext(ts, i, TexcoordChunk);
      block := block + [[TexcoordLine(uv.0), TexcoordLine(uv.1), TexcoordLine(uv.2)]];
    }
    assert ts[..|ts|] == ts;
  }

  /** The third loop: three `vn` lines per triangle, `getNormal` writing into the same outputs each time. */
  method WriteNormals(mesh: Mesh, init: Tri3) returns (block: seq<Chunk>)
    requires mesh.Valid() && mesh.IndexesInRange()
    ensures block == Map(Normals(mesh, init), NormalChunk)
  {
    ghost var ns := Normals(mesh, init);
    var nm := init;
    block := [];
    for i := 0 to mesh.TriangleCount()
      invariant block == Map(ns[..i], NormalChunk)
      invariant !mesh.hasNormal || mesh.vertexCount == 0 ==> nm == init
    {
      nm := mesh.GetNormal(i, nm);
      MapPrefixNext(ns, i, NormalChunk);
      block := block + [[NormalLine(nm.0), NormalLine(nm.1), NormalLine(nm.2)]];
    }
    assert ns[..|ns|] == ns;
  }

  /** The fourth loop: one `f` line per triangle. */
  method WriteFaces(n: nat) returns (block: seq<Chunk>)
    ensures block == Map(Range(n), FaceChunk)
  {
    block := [];
    for i := 0 to n
      invariant block == Map(Range(n)[..i], FaceChunk)
    {
      var i1, i2, i3 := i * 3 + 1, i * 3 + 2, i * 3 + 3;
      MapPrefixNext(Range(n), i, FaceChunk);
      block := block + [[FaceLine([i1, i2, i3])]];
    }
    assert Range(n)[..n] == Range(n);
  }

  /**
   * The layout of a written file: four chunks per triangle, the `v` chunks
   * in triangle order, then the `vt`, `vn` and `f` chunks likewise; ten lines
   * per triangle in all.
   */
  lemma FileLayout(ps: seq<Tri3>, ts: seq<Tri2>, ns: seq<Tri3>)
    requires |ps| == |ts| == |ns|
    ensures var file, n := ObjFile(ps, ts, ns), |ps|;
      |file| == 4 * n
      && (forall j :: 0 <= j < n ==> file[j] == VertexChunk(ps[j]))
      && (forall j :: n <= j < 2 * n ==> file[j] == TexcoordChunk(ts[j - n]))
      && (forall j :: 2 * n <= j < 3 * n ==> file[j] == NormalChunk(ns[j - 2 * n]))
      && (forall j :: 3 * n <= j < 4 * n ==> file[j] == FaceChunk(j - 3 * n))
  {
  }

  /** A written file has ten lines per triangle. */
  lemma FileLength(ps: seq<Tri3>, ts: seq<Tri2>, ns: seq<Tri3>)
    requires |ps| == |ts| == |ns|
    ensures |Lines(ObjFile(ps, ts, ns))| == 10 * |ps|
  {
    var a, b, c, d := Map(ps, VertexChunk), Map(ts, TexcoordChunk), Map(ns, NormalChunk), Map(Range(|ps|), FaceChunk);
    FlattenAppend(a + b + c, d);
    FlattenAppend(a + b, c);
    FlattenAppend(a, b);
    FlattenTriples(a);
    FlattenTriples(b);
    FlattenTriples(c);
    FlattenSingles(d);
  }
}
