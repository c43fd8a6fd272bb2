// The Wavefront OBJ reader: a line loop that collects vertex, normal and
// texcoord pools, builds one object per `o`/`g` section from its triangular
// faces, reads material libraries, and hands out the objects it finished
// (with their meshes), the objects that had a face error, and the materials.
module ObjReader {
  import opened Base
  import opened MeshTypes
  import opened Meshes
  import opened Names
  import opened ObjText

  /** `s[i]`, or `d` when `i` is out of range: the reader indexes its pools without a check. */
  function At<T>(s: seq<T>, i: int, d: T): T
  {
    if 0 <= i < |s| then s[i] else d
  }

  /** The number in a slot, 0 when there is none. */
  function Number(s: Slot): int
  {
    if s.Given? then s.number else 0
  }

  /** The three corner positions of an accepted face (file indices are 1-based). */
  function VertexCorners(refs: seq<Ref>, vs: seq<Vec3>): seq<Vec3>
    requires |refs| == 3
  {
    [At(vs, refs[0].vertex - 1, Zero3), At(vs, refs[1].vertex - 1, Zero3), At(vs, refs[2].vertex - 1, Zero3)]
  }

  function NormalCorners(refs: seq<Ref>, ns: seq<Vec3>): seq<Vec3>
    requires |refs| == 3
  {
    [At(ns, Number(refs[0].normal) - 1, Zero3), At(ns, Number(refs[1].normal) - 1, Zero3), At(ns, Number(refs[2].normal) - 1, Zero3)]
  }

  function TexcoordCorners(refs: seq<Ref>, ts: seq<Vec2>): seq<Vec2>
    requires |refs| == 3
  {
    [At(ts, Number(refs[0].texcoord) - 1, Zero2), At(ts, Number(refs[1].texcoord) - 1, Zero2), At(ts, Number(refs[2].texcoord) - 1, Zero2)]
  }

  /** The face a line describes, under the corrected rules, for an object with the given flags. */
  function FaceOf(tokens: seq<Token>, objTex: bool, objNorm: bool, first: bool): FaceScan
  {
    Scan(Corrected, tokens, StartScan(objTex, objNorm), first)
  }

  /**
   * The reference loop of `readSurfaceLine`: the zero-based indices go into
   * four-entry arrays, a fifth reference is refused before it is stored, the
   * first reference of an object's first face decides whether the object has
   * texcoords and normals, and every other reference must match them. `ok`
   * says whether the face is a triangle; `tex` and `norm` are the object's
   * flags afterwards.
   */
  method ScanFace(tokens: seq<Token>, objTex: bool, objNorm: bool, first: bool)
    returns (ok: bool, vi: array<int>, ti: array<int>, ni: array<int>, tex: bool, norm: bool)
    ensures var f := FaceOf(tokens, objTex, objNorm, first);
      ok == Accepted(f)
      && (ok ==> vi.Length == Capacity && ti.Length == Capacity && ni.Length == Capacity
                 && tex == f.objTex && norm == f.objNorm && Stored(vi, ti, ni, f.refs))
  {
    vi, ti, ni := new int[Capacity], new int[Capacity], new int[Capacity];
    ghost var s0 := StartScan(objTex, objNorm);
    ghost var refs: seq<Ref> := [];
    ghost var lineTex, lineNorm := false, false;
    var count := 0;
    tex, norm := objTex, objNorm;
    var k := 0;
    while k < |tokens|
      invariant 0 <= k <= |tokens| && count == |refs| <= Capacity
      invariant Scan(Corrected, tokens[..k], s0, first) == FaceScan(false, refs, tex, norm, lineTex, lineNorm)
      invariant Stored(vi, ti, ni, refs)
    {
      var stored, tex', norm' := Advance(vi, ti, ni, tokens, k, count, first, s0, refs, tex, norm, lineTex, lineNorm);
      if !stored {
        ScanFailedPrefix(Corrected, tokens, k + 1, s0, first);
        return false, vi, ti, ni, tex, norm;
      }
      tex, norm, lineTex, lineNorm := tex', norm', tex', norm';
      refs := refs + [tokens[k].ref];
      count := count + 1;
      k := k + 1;
    }
    assert tokens[..k] == tokens;
    ok := count == 3;
  }

  /**
   * One token of the loop: a reference is refused when the arrays are full
   * or when it does not match the object's flags (past the first reference
   * of the first face); otherwise its zero-based indices are stored at the
   * next free entry. Anything that is not a reference fails the line.
   */
  method Advance(vi: array<int>, ti: array<int>, ni: array<int>, tokens: seq<Token>, k: nat, count: nat, first: bool,
                 ghost s0: FaceScan, ghost refs: seq<Ref>, tex: bool, norm: bool, ghost lineTex: bool, ghost lineNorm: bool)
    returns (stored: bool, tex': bool, norm': bool)
    requires vi.Length == Capacity && ti.Length == Capacity && ni.Length == Capacity
    requires vi != ti && ti != ni && vi != ni
    requires k < |tokens| && count == |refs| <= Capacity && Stored(vi, ti, ni, refs)
    requires Scan(Corrected, tokens[..k], s0, first) == FaceScan(false, refs, tex, norm, lineTex, lineNorm)
    modifies vi, ti, ni
    ensures !stored ==> Scan(Corrected, tokens[..k + 1], s0, first).failed
    ensures stored ==> (tokens[k].Reference? && |refs| < Capacity && Stored(vi, ti, ni, refs + [tokens[k].ref])
                        && Scan(Corrected, tokens[..k + 1], s0, first) == FaceScan(false, refs + [tokens[k].ref], tex', norm', tex', norm'))
  {
    ScanPrefixNext(Corrected, tokens, k, s0, first);
    if !tokens[k].Reference? {
      return false, tex, norm;
    }
    var r := tokens[k].ref;
    tex', norm' := tex, norm;
    if count >= Capacity {
      return false, tex', norm';
    }
    if first && count == 0 {
      tex', norm' := r.texcoord.Given?, r.normal.Given?;
    } else if r.texcoord.Given? != tex || r.normal.Given? != norm {
      return false, tex', norm';
    }
    vi[count] := r.vertex - 1;
    ti[count] := Number(r.texcoord) - 1;
    ni[count] := Number(r.normal) - 1;
    stored := true;
  }

  /** The arrays hold the zero-based indices of the references, in order. */
  predicate Stored(vi: array<int>, ti: array<int>, ni: array<int>, refs: seq<Ref>)
    reads vi, ti, ni
  {
    |refs| <= vi.Length && |refs| <= ti.Length && |refs| <= ni.Length
    && forall j :: 0 <= j < |refs| ==>
         vi[j] == refs[j].vertex - 1 && ti[j] == Number(refs[j].texcoord) - 1 && ni[j] == Number(refs[j].normal) - 1
  }

  /** The fields of an object of the file: everything but its mesh. */
  datatype ObjectData = ObjectData(
    name: string, vertices: seq<Vec3>, normals: seq<Vec3>, texcoords: seq<Vec2>,
    hasNormal: bool, hasTexcoord: bool, selectedMatName: string, hasReadingError: bool,
    material: Option<nat>, groupNames: seq<string>)

  /** A new `ObjObject`: no name, no data, no flags, no material. */
  const NewObject: ObjectData := ObjectData("", [], [], [], false, false, "", false, None, [])

  /**
   * An object of the file: the section after an `o` or `g` line, or before
   * the first of them. `material` is the position among the reader's
   * materials of the one `usemtl` selected.
   */
  class ObjObject {
    const name: string
    const vertices: seq<Vec3>
    const normals: seq<Vec3>
    const texcoords: seq<Vec2>
    const hasNormal: bool
    const hasTexcoord: bool
    const selectedMatName: string
    const hasReadingError: bool
    const material: Option<nat>
    const groupNames: seq<string>
    /** The mesh the object is turned into when it is finished; it is part of the object. */
    const mesh: Mesh

    /** An object with the given fields and an empty mesh. */
    constructor (d: ObjectData)
      ensures Data() == d
      ensures fresh(mesh) && mesh.Valid() && mesh.vertexCount == 0 && !mesh.hasNormal && !mesh.hasTexcoord
    {
      name, vertices, normals, texcoords := d.name, d.vertices, d.normals, d.texcoords;
      hasNormal, hasTexcoord, selectedMatName, hasReadingError := d.hasNormal, d.hasTexcoord, d.selectedMatName, d.hasReadingError;
      material, groupNames := d.material, d.groupNames;
      mesh := new Mesh();
    }

    function Data(): ObjectData
    {
      ObjectData(name, vertices, normals, texcoords, hasNormal, hasTexcoord, selectedMatName, hasReadingError, material, groupNames)
    }
  }

  /** Every vertex has a normal and a texcoord exactly when the object has them, and the vertices make whole triangles. */
  predicate Consistent(d: ObjectData)
  {
    ConsistentCounts(|d.vertices|, |d.normals|, |d.texcoords|, d.hasNormal, d.hasTexcoord)
  }

  predicate ConsistentCounts(v: nat, n: nat, t: nat, hasNormal: bool, hasTexcoord: bool)
  {
    v % 3 == 0 && n == (if hasNormal then v else 0) && t == (if hasTexcoord then v else 0)
  }

  /** A triangle keeps the counts consistent: its flags are the object's, or it is the object's first. */
  lemma TriangleKeepsCounts(v: nat, n: nat, t: nat, hasNormal: bool, hasTexcoord: bool, norm: bool, tex: bool)
    requires ConsistentCounts(v, n, t, hasNormal, hasTexcoord)
    requires v == 0 || (norm == hasNormal && tex == hasTexcoord)
    ensures ConsistentCounts(v + 3, n + (if norm then 3 else 0), t + (if tex then 3 else 0), norm, tex)
  {
  }

  /** The object's material, if any, is one of the first `n` materials. */
  predicate MaterialBelow(d: ObjectData, n: nat)
  {
    d.material.Some? ==> d.material.value < n
  }

  /** The object being read: consistent, its material known, and without data or flags before its first face. */
  predicate CurrentValid(d: ObjectData, first: bool, n: nat)
  {
    Consistent(d) && MaterialBelow(d, n) && (first ==> d.vertices == [] && !d.hasNormal && !d.hasTexcoord)
  }

  /** Flagging an object with a face error keeps it valid as the object being read. */
  lemma FlaggedValid(d: ObjectData, first: bool, n: nat)
    requires CurrentValid(d, first, n)
    ensures CurrentValid(d.(hasReadingError := true), first, n)
  {
  }

  /** A finished object: consistent, not empty, without a face error, its material known. */
  predicate Complete(d: ObjectData, n: nat)
  {
    Consistent(d) && |d.vertices| > 0 && !d.hasReadingError && MaterialBelow(d, n)
  }

  /** The finished objects: each complete, and named differently from those before it. */
  predicate RootsValid(roots: seq<ObjObject>, n: nat)
    decreases |roots|
  {
    roots == [] ||
    (var init, last := roots[..|roots| - 1], roots[|roots| - 1];
     RootsValid(init, n) && Complete(last.Data(), n) && last.name !in NamesOf(init))
  }

  /** The objects with a face error: each flagged, and recorded once. */
  predicate ErrorsValid(errors: seq<ObjObject>)
    decreases |errors|
  {
    errors == [] ||
    (var init, last := errors[..|errors| - 1], errors[|errors| - 1];
     ErrorsValid(init) && last.hasReadingError && last !in init)
  }

  /** The names of a list of objects. */
  function NamesOf(objs: seq<ObjObject>): (r: set<string>)
    ensures forall i :: 0 <= i < |objs| ==> objs[i].name in r
  {
    set i | 0 <= i < |objs| :: objs[i].name
  }

  /** The finished objects are all complete, and no two have the same name. */
  lemma {:induction false} RootsValidMeans(roots: seq<ObjObject>, n: nat)
    requires RootsValid(roots, n)
    ensures forall i :: 0 <= i < |roots| ==> Complete(roots[i].Data(), n)
    ensures forall i, j :: 0 <= i < j < |roots| ==> roots[i].name != roots[j].name
    decreases |roots|
  {
    if roots != [] {
      var init := roots[..|roots| - 1];
      RootsValidMeans(init, n);
      forall i, j | 0 <= i < j < |roots| ensures roots[i].name != roots[j].name {
        if j == |roots| - 1 {
          assert roots[i] == init[i];
        } else {
          assert roots[i] == init[i] && roots[j] == init[j];
        }
      }
    }
  }

  /** The error objects are all flagged, and no object is recorded twice. */
  lemma {:induction false} ErrorsValidMeans(errors: seq<ObjObject>)
    requires ErrorsValid(errors)
    ensures forall i :: 0 <= i < |errors| ==> errors[i].hasReadingError
    ensures forall i, j :: 0 <= i < j < |errors| ==> errors[i] != errors[j]
    decreases |errors|
  {
    if errors != [] {
      var init := errors[..|errors| - 1];
      ErrorsValidMeans(init);
      forall i, j | 0 <= i < j < |errors| ensures errors[i] != errors[j] {
        if j == |errors| - 1 {
          assert errors[i] == init[i];
        } else {
          assert errors[i] == init[i] && errors[j] == init[j];
        }
      }
    }
  }

  /** More materials keep every material position valid. */
  lemma {:induction false} RootsValidGrows(roots: seq<ObjObject>, n: nat, m: nat)
    requires RootsValid(roots, n) && n <= m
    ensures RootsValid(roots, m)
    decreases |roots|
  {
    if roots != [] {
      RootsValidGrows(roots[..|roots| - 1], n, m);
    }
  }

  /** A finished object whose name is new joins the finished objects. */
  lemma RootsValidAppend(roots: seq<ObjObject>, n: nat, o: ObjObject)
    requires RootsValid(roots, n) && o.name !in NamesOf(roots) && Complete(o.Data(), n)
    ensures RootsValid(roots + [o], n)
  {
    assert (roots + [o])[..|roots|] == roots;
  }

  /** A flagged object not yet recorded joins the error objects. */
  lemma ErrorsValidAppend(errors: seq<ObjObject>, o: ObjObject)
    requires ErrorsValid(errors) && o !in errors && o.hasReadingError
    ensures ErrorsValid(errors + [o])
  {
    assert (errors + [o])[..|errors|] == errors;
  }

  /** The box of the vertices read, once there is one. */
  predicate ReadBox(firstVertex: bool, vs: seq<Vec3>, b: BoundingBox)
  {
    (firstVertex <==> vs == []) && (vs != [] ==> b == PointsBox(vs))
  }

  /** The first vertex gives the box of its point; each later one grows the box. */
  lemma ReadBoxGrows(firstVertex: bool, vs: seq<Vec3>, b: BoundingBox, v: Vec3)
    requires ReadBox(firstVertex, vs, b)
    ensures ReadBox(false, vs + [v], if firstVertex then PointBox(v) else Extend(b, v))
  {
    assert (vs + [v])[..|vs|] == vs;
  }

  /** The first material with the given name, if any. */
  predicate FirstNamed(materials: seq<ObjMaterial>, name: string, r: Option<nat>)
  {
    match r
    case Some(i) => i < |materials| && materials[i].name == name && forall k :: 0 <= k < i ==> materials[k].name != name
    case None => forall k :: 0 <= k < |materials| ==> materials[k].name != name
  }

  /** `objs` is `before` with one more object, holding `d`, at its end. */
  predicate Added(objs: seq<ObjObject>, before: seq<ObjObject>, d: ObjectData)
  {
    |objs| == |before| + 1 && objs[..|before|] == before && objs[|before|].Data() == d
  }

  /**
   * What finishing `d` did to the finished objects `roots0` and the error
   * objects `errors0`: an object with a face error joins the error objects,
   * an empty one is dropped, and any other joins the finished objects under
   * a name none of them has.
   */
  predicate FinishedAs(d: ObjectData, roots0: seq<ObjObject>, errors0: seq<ObjObject>, roots: seq<ObjObject>, errors: seq<ObjObject>)
  {
    if d.hasReadingError then roots == roots0 && Added(errors, errors0, d)
    else if d.vertices == [] then roots == roots0 && errors == errors0
    else errors == errors0 && Added(roots, roots0, d.(name := UniqueName(NamesOf(roots0), d.name)))
  }

  /** What finishing did, in terms of the objects' fields. */
  lemma FinishedAsData(d: ObjectData, roots0: seq<ObjObject>, errors0: seq<ObjObject>, roots: seq<ObjObject>, errors: seq<ObjObject>)
    requires FinishedAs(d, roots0, errors0, roots, errors)
    ensures DataOf(roots) == FinishedRoots(d, DataOf(roots0)) && DataOf(errors) == FinishedErrors(d, DataOf(errors0))
  {
    NamesOfDataOf(roots0);
    if d.hasReadingError {
      assert DataOf(errors) == DataOf(errors0) + [d];
    } else if d.vertices != [] {
      assert DataOf(roots) == DataOf(roots0) + [d.(name := UniqueName(NamesOf(roots0), d.name))];
    }
  }

  /**
   * An accepted face was appended to `d0`, giving `d`: the three corners its
   * references name (an index outside a pool reads zero), and their normals
   * and texcoords exactly when the object has them.
   */
  predicate Appended(d: ObjectData, d0: ObjectData, refs: seq<Ref>, pv: seq<Vec3>, pn: seq<Vec3>, pt: seq<Vec2>)
  {
    |refs| == 3
    && d.vertices == d0.vertices + VertexCorners(refs, pv)
    && d.normals == d0.normals + (if d.hasNormal then NormalCorners(refs, pn) else [])
    && d.texcoords == d0.texcoords + (if d.hasTexcoord then TexcoordCorners(refs, pt) else [])
    && d == d0.(vertices := d.vertices, normals := d.normals, texcoords := d.texcoords,
                hasNormal := d.hasNormal, hasTexcoord := d.hasTexcoord)
  }

  /**
   * The body of `readSurfaceLine` on the object being read, the face's tokens
   * and the pools: an accepted face appends its three corners, with their
   * normals and texcoords when the object has them, and a refused one
   * changes nothing.
   */
  method AddFace(d: ObjectData, tokens: seq<Token>, first: bool, pv: seq<Vec3>, pn: seq<Vec3>, pt: seq<Vec2>, ghost n: nat)
    returns (ok: bool, r: ObjectData)
    requires CurrentValid(d, first, n)
    ensures var f := FaceOf(tokens, d.hasTexcoord, d.hasNormal, first);
      ok == Accepted(f) && (ok ==> Appended(r, d, f.refs, pv, pn, pt) && r.hasTexcoord == f.objTex && r.hasNormal == f.objNorm)
    ensures ok ==> r == FaceData(d, FaceOf(tokens, d.hasTexcoord, d.hasNormal, first), pv, pn, pt)
    ensures !ok ==> r == d
    ensures CurrentValid(r, first && !ok, n)
  {
    var vi, ti, ni, tex, norm;
    ok, vi, ti, ni, tex, norm := ScanFace(tokens, d.hasTexcoord, d.hasNormal, first);
    if !ok {
      return ok, d;
    }
    AcceptedFaceIsUniform(tokens, d.hasTexcoord, d.hasNormal, first);
    TriangleKeepsCounts(|d.vertices|, |d.normals|, |d.texcoords|, d.hasNormal, d.hasTexcoord, norm, tex);
    r := AppendCorners(d, vi, ti, ni, tex, norm, pv, pn, pt, FaceOf(tokens, d.hasTexcoord, d.hasNormal, first).refs);
    AppendedIsFaceData(r, d, FaceOf(tokens, d.hasTexcoord, d.hasNormal, first), pv, pn, pt);
  }

  /** The corners of an accepted face, by the indices the arrays hold, onto the object. */
  method AppendCorners(d: ObjectData, vi: array<int>, ti: array<int>, ni: array<int>, tex: bool, norm: bool,
                       pv: seq<Vec3>, pn: seq<Vec3>, pt: seq<Vec2>, ghost refs: seq<Ref>)
    returns (r: ObjectData)
    requires |refs| == 3 && Stored(vi, ti, ni, refs)
    ensures r.hasNormal == norm && r.hasTexcoord == tex
    ensures Appended(r, d, refs, pv, pn, pt)
  {
    r := d.(vertices := d.vertices + [At(pv, vi[0], Zero3), At(pv, vi[1], Zero3), At(pv, vi[2], Zero3)]);
    if norm {
      r := r.(normals := r.normals + [At(pn, ni[0], Zero3), At(pn, ni[1], Zero3), At(pn, ni[2], Zero3)]);
    }
    if tex {
      r := r.(texcoords := r.texcoords + [At(pt, ti[0], Zero2), At(pt, ti[1], Zero2), At(pt, ti[2], Zero2)]);
    }
    r := r.(hasNormal := norm, hasTexcoord := tex);
  }

  /** The mesh of a finished object holds its vertices, and its normals and texcoords when it has them. */
  predicate MeshHolds(o: ObjObject)
    reads o, o.mesh, o.mesh.vertices, o.mesh.normals, o.mesh.texcoords
  {
    var m := o.mesh;
    m.Valid() && m.vertexCount == |o.vertices| && m.uvCount == 1 && m.indexCount == 0
    && m.hasNormal == o.hasNormal && m.hasTexcoord == o.hasTexcoord
    && m.vertices != null && m.vertices[..] == o.vertices
    && (m.hasNormal ==> m.normals[..] == o.normals)
    && (m.hasTexcoord ==> m.texcoords[..] == o.texcoords)
  }

  /**
   * `createObjectMesh`: a non-empty object's mesh takes its attribute flags,
   * is initialised for its vertex count (one texcoord set, no index), and
   * receives copies of its vertices, normals and texcoords.
   */
  method CreateObjectMesh(obj: ObjObject)
    requires Consistent(obj.Data())
    modifies obj.mesh
    ensures obj.vertices != [] ==> MeshHolds(obj)
    ensures obj.vertices == [] ==> unchanged(obj.mesh)
  {
    var n := |obj.vertices|;
    if n <= 0 {
      return;
    }
    var mesh := obj.mesh;
    mesh.hasNormal := obj.hasNormal;
    mesh.hasTexcoord := obj.hasTexcoord;
    mesh.Init(n, 1, 0);
    CopyInto(mesh.vertices, 0, obj.vertices);
    assert mesh.vertices[..] == obj.vertices;
    if mesh.hasNormal && |obj.normals| > 0 {
      CopyInto(mesh.normals, 0, obj.normals);
      assert mesh.normals[..] == obj.normals;
    }
    if mesh.hasTexcoord && |obj.texcoords| > 0 {
      CopyInto(mesh.texcoords, 0, obj.texcoords);
      assert mesh.texcoords[..] == obj.texcoords;
    }
  }

  /** The `g` line's group names onto the object, and its name from them. */
  method NameFromGroups(d: ObjectData, groups: seq<string>) returns (r: ObjectData)
    ensures r == d.(groupNames := d.groupNames + groups, name := JoinGroups(groups))
  {
    r := d;
    var objectName := "";
    for i := 0 to |groups|
      invariant r == d.(groupNames := d.groupNames + groups[..i]) && objectName == JoinGroups(groups[..i])
    {
      assert groups[..i + 1][..i] == groups[..i];
      r := r.(groupNames := r.groupNames + [groups[i]]);
      if |objectName| > 0 {
        objectName := objectName + "_";
      }
      objectName := objectName + groups[i];
    }
    assert groups[..|groups|] == groups;
    r := r.(name := objectName);
  }

  // ---- the line loop as a function of the file's lines ----

  /** The fields of a list of objects, in order. */
  function DataOf(objs: seq<ObjObject>): (r: seq<ObjectData>)
    ensures |r| == |objs| && forall i {:trigger r[i]} :: 0 <= i < |objs| ==> r[i] == objs[i].Data()
  {
    seq(|objs|, i requires 0 <= i < |objs| => objs[i].Data())
  }

  /** The names in a list of object fields. */
  function NamesOfData(ds: seq<ObjectData>): set<string>
  {
    set i | 0 <= i < |ds| :: ds[i].name
  }

  /** The names of the objects are the names in their fields. */
  lemma NamesOfDataOf(objs: seq<ObjObject>)
    ensures NamesOf(objs) == NamesOfData(DataOf(objs))
  {
    var ds := DataOf(objs);
    forall n | n in NamesOfData(ds) ensures n in NamesOf(objs) {
      var i :| 0 <= i < |ds| && ds[i].name == n;
      assert ds[i] == objs[i].Data();
    }
    forall n | n in NamesOf(objs) ensures n in NamesOfData(ds) {
      var i :| 0 <= i < |objs| && objs[i].name == n;
      assert ds[i].name == n;
    }
  }

  /**
   * What the reader has gathered, apart from its line buffer: the pools, the
   * millimetre scaling, the object being read and whether its first face is
   * still to come, the fields of the finished objects and of the error
   * objects, the materials, and the error flag.
   */
  datatype ReadState = ReadState(
    vertices: seq<Vec3>, normals: seq<Vec3>, texcoords: seq<Vec2>, autoScale: bool,
    current: ObjectData, first: bool, roots: seq<ObjectData>, errors: seq<ObjectData>,
    materials: seq<ObjMaterial>, hasError: bool)

  /** What a reader is given: the file's directory, its libraries by path, the lexer, the material a library starts from, and whether a refused face stops it. */
  datatype ReadSetting = ReadSetting(
    dir: string, libraries: string -> Option<seq<string>>, sc: Scanner, blank: ObjMaterial, stopOnError: bool)

  /** A new reader's state. */
  const StartState: ReadState := ReadState([], [], [], false, NewObject, true, [], [], [], false)

  /** The finished objects after `d` is finished: it joins them, renamed apart, unless it had a face error or is empty. */
  function FinishedRoots(d: ObjectData, roots: seq<ObjectData>): seq<ObjectData>
  {
    if d.hasReadingError || d.vertices == [] then roots
    else roots + [d.(name := UniqueName(NamesOfData(roots), d.name))]
  }

  /** The error objects after `d` is finished: it joins them when it had a face error. */
  function FinishedErrors(d: ObjectData, errors: seq<ObjectData>): seq<ObjectData>
  {
    if d.hasReadingError then errors + [d] else errors
  }

  /** `finalizeObject`: the object being read is finished and a new one, before its first face, begun. */
  function Finish(g: ReadState): ReadState
  {
    g.(roots := FinishedRoots(g.current, g.roots), errors := FinishedErrors(g.current, g.errors),
       current := NewObject, first := true)
  }

  /** A `v`, `vn` or `vt` line. */
  predicate IsPoolLine(line: string, n: nat)
  {
    TagMatches(line, n, "v") || TagMatches(line, n, "vn") || TagMatches(line, n, "vt")
  }

  /** A pool line's entry appended to its pool, a vertex scaled under the millimetre marker. */
  function PoolStep(g: ReadState, line: string, n: nat, sc: Scanner): ReadState
  {
    if TagMatches(line, n, "v") then
      var v := sc.vec3(After(line, 2));
      g.(vertices := g.vertices + [if g.autoScale then Scaled(v) else v])
    else if TagMatches(line, n, "vn") then g.(normals := g.normals + [sc.vec3(After(line, 3))])
    else if TagMatches(line, n, "vt") then g.(texcoords := g.texcoords + [sc.vec2(After(line, 3))])
    else g
  }

  /** `d` with an accepted face appended: its three corners, and their normals and texcoords when the face gives the object them. */
  function FaceData(d: ObjectData, f: FaceScan, pv: seq<Vec3>, pn: seq<Vec3>, pt: seq<Vec2>): ObjectData
    requires |f.refs| == 3
  {
    d.(vertices := d.vertices + VertexCorners(f.refs, pv),
       normals := d.normals + (if f.objNorm then NormalCorners(f.refs, pn) else []),
       texcoords := d.texcoords + (if f.objTex then TexcoordCorners(f.refs, pt) else []),
       hasNormal := f.objNorm, hasTexcoord := f.objTex)
  }

  /** An appended face whose flags the object took is `FaceData`. */
  lemma AppendedIsFaceData(d: ObjectData, d0: ObjectData, f: FaceScan, pv: seq<Vec3>, pn: seq<Vec3>, pt: seq<Vec2>)
    requires Appended(d, d0, f.refs, pv, pn, pt) && d.hasNormal == f.objNorm && d.hasTexcoord == f.objTex
    ensures d == FaceData(d0, f, pv, pn, pt)
  {
  }

  /**
   * An `f` line whose face is `f`, and whether it stops the reader: skipped
   * once the object being read has a face error; an accepted face is appended
   * and ends the object's first face; a refused one stops a reader that stops
   * on errors and otherwise flags the object and the reader.
   */
  function FaceStep(g: ReadState, f: FaceScan, s: ReadSetting): (ReadState, bool)
  {
    if g.current.hasReadingError then (g, false)
    else
      if Accepted(f) then (g.(current := FaceData(g.current, f, g.vertices, g.normals, g.texcoords), first := false), false)
      else if s.stopOnError then (g, true)
      else (g.(current := g.current.(hasReadingError := true), hasError := true), false)
  }

  /** The face of an `f` line for the object being read. */
  function LineFace(g: ReadState, line: string, s: ReadSetting): FaceScan
  {
    FaceOf(s.sc.face(After(line, 2)), g.current.hasTexcoord, g.current.hasNormal, g.first)
  }

  /** The path of the library an `mtllib` line names: after the file's directory and `PATH_SPLITTER` when it has a directory. */
  function LibraryPath(dir: string, name: string): string
  {
    (if |dir| > 0 then dir + [PathSplitter] else "") + name
  }

  /** The materials a library adds: none when it cannot be read. */
  function LibraryRead(s: ReadSetting, path: string): seq<ObjMaterial>
  {
    if s.libraries(path).Some? then Library(Corrected, s.libraries(path).value, 0, s.blank, s.sc) else []
  }

  /** The position of the first material with the name, if any. */
  function FirstNamedIndex(materials: seq<ObjMaterial>, name: string): (r: Option<nat>)
    ensures FirstNamed(materials, name, r)
    decreases |materials|
  {
    if materials == [] then None
    else if materials[0].name == name then Some(0)
    else match FirstNamedIndex(materials[1..], name)
      case None => None
      case Some(i) => Some(i + 1)
  }

  /** A list has only one first material with a given name. */
  lemma FirstNamedUnique(materials: seq<ObjMaterial>, name: string, a: Option<nat>, b: Option<nat>)
    requires FirstNamed(materials, name, a) && FirstNamed(materials, name, b)
    ensures a == b
  {
  }

  /**
   * An `o`, `g`, `mtllib` or `usemtl` line; any other line changes nothing.
   * `o` finishes the object being read and names the next by the text after
   * the tag; `g default` changes nothing, any other `g` finishes the object
   * and names the next by its groups; `mtllib` adds the library's materials;
   * `usemtl` selects the first material with the name, or records the name.
   */
  function StructureStep(g: ReadState, line: string, n: nat, s: ReadSetting): ReadState
  {
    if TagMatches(line, n, "o") then Finish(g).(current := NewObject.(name := After(line, 2)))
    else if TagMatches(line, n, "g") then
      if After(line, 2) == "default" then g
      else
        var groups := s.sc.identifiers(After(line, 2));
        Finish(g).(current := NewObject.(groupNames := groups, name := JoinGroups(groups)))
    else if TagMatches(line, n, "mtllib") then
      g.(materials := g.materials + LibraryRead(s, LibraryPath(s.dir, After(line, 7))))
    else if TagMatches(line, n, "usemtl") then
      var name := After(line, 7);
      var r := FirstNamedIndex(g.materials, name);
      g.(current := if r.None? then g.current.(selectedMatName := name) else g.current.(material := r))
    else g
  }

  /** A line read by its tag, and whether it stops the reader: pool lines first, then faces, then the rest. */
  function TaggedStep(g: ReadState, line: string, n: nat, s: ReadSetting): (ReadState, bool)
  {
    if IsPoolLine(line, n) then (PoolStep(g, line, n, s.sc), false)
    else if TagMatches(line, n, "f") then FaceStep(g, LineFace(g, line, s), s)
    else (StructureStep(g, line, n, s), false)
  }

  /**
   * One line of the file in the loop of `read`, with whether the head comment
   * block goes on and whether the reader stops: a millimetre comment in the
   * head block turns on the scaling and ends the block; any other line is
   * read by its tag, and only a comment keeps the block going.
   */
  function LineStep(g: ReadState, inHead: bool, line: string, n: nat, s: ReadSetting): (ReadState, bool, bool)
  {
    var comment := TagMatches(line, n, "#");
    if inHead && comment && MarksMillimeters(line) then (g.(autoScale := true), false, false)
    else
      var (g', stop) := TaggedStep(g, line, n, s);
      (g', inHead && comment, stop)
  }

  /** The line loop of `read` from the `k`-th line on, and whether a refused face stopped it. */
  function ReadAll(g: ReadState, inHead: bool, lines: seq<string>, k: nat, s: ReadSetting): (ReadState, bool)
    decreases |lines| - k, 1
  {
    if k >= |lines| then (g, false) else ReadFrom(g, inHead, lines, k, s)
  }

  /** The line loop at its `k`-th line: that line, then the rest unless it stopped the reader. */
  function ReadFrom(g: ReadState, inHead: bool, lines: seq<string>, k: nat, s: ReadSetting): (ReadState, bool)
    requires k < |lines|
    decreases |lines| - k, 0
  {
    var (g', inHead', stop) := LineStep(g, inHead, lines[k], |lines[k]|, s);
    if stop then (g', true) else ReadAll(g', inHead', lines, k + 1, s)
  }

  /** The loop from the `k`-th line: that line, then the rest unless it stopped the reader. */
  lemma ReadAllStep(g: ReadState, inHead: bool, lines: seq<string>, k: nat, s: ReadSetting,
                    g': ReadState, inHead': bool, stop: bool)
    requires k < |lines| && (g', inHead', stop) == LineStep(g, inHead, lines[k], |lines[k]|, s)
    ensures ReadAll(g, inHead, lines, k, s) == if stop then (g', true) else ReadAll(g', inHead', lines, k + 1, s)
  {
  }

  /**
   * `read` of an opened file whose lines from the `k`-th on remain: a new
   * object, the line loop, and the last object finished unless the reader stopped.
   */
  function ReadFile(g: ReadState, lines: seq<string>, k: nat, s: ReadSetting): ReadState
  {
    var (g', stop) := ReadAll(g.(current := NewObject), true, lines, k, s);
    if stop then g' else Finish(g')
  }

  /** The reader stops only on a refused face, and only when it stops on errors. */
  lemma {:induction false} StopsOnlyOnError(g: ReadState, inHead: bool, lines: seq<string>, k: nat, s: ReadSetting)
    ensures ReadAll(g, inHead, lines, k, s).1 ==> s.stopOnError
    decreases |lines| - k
  {
    if k < |lines| {
      var (g', inHead', stop) := LineStep(g, inHead, lines[k], |lines[k]|, s);
      if !stop {
        StopsOnlyOnError(g', inHead', lines, k + 1, s);
        assert ReadAll(g, inHead, lines, k, s) == ReadAll(g', inHead', lines, k + 1, s);
      }
    }
  }

  /** No object of the file has been given a vertex yet, nor a face error. */
  predicate Untouched(d: ObjectData)
  {
    d.vertices == [] && !d.hasReadingError
  }

  /** Finishing an untouched object adds it nowhere. */
  lemma FinishUntouched(g: ReadState)
    requires Untouched(g.current)
    ensures Finish(g).roots == g.roots && Finish(g).errors == g.errors
  {
  }

  /** An `o`, `g`, `mtllib` or `usemtl` line leaves an untouched object untouched, and finishes no object. */
  lemma StructureStepUntouched(g: ReadState, line: string, n: nat, s: ReadSetting)
    requires Untouched(g.current)
    ensures var g' := StructureStep(g, line, n, s);
      Untouched(g'.current) && g'.roots == g.roots && g'.errors == g.errors
  {
    if TagMatches(line, n, "o") || TagMatches(line, n, "g") {
      FinishUntouched(g);
    }
  }

  /** A line that is not a face leaves an untouched object untouched, and finishes no object. */
  lemma NonFaceLineFinishesNothing(g: ReadState, inHead: bool, line: string, n: nat, s: ReadSetting)
    requires Untouched(g.current) && !TagMatches(line, n, "f")
    ensures var (g', _, stop) := LineStep(g, inHead, line, n, s);
      !stop && Untouched(g'.current) && g'.roots == g.roots && g'.errors == g.errors
  {
    if !(inHead && TagMatches(line, n, "#") && MarksMillimeters(line)) && !IsPoolLine(line, n) {
      StructureStepUntouched(g, line, n, s);
      assert TaggedStep(g, line, n, s) == (StructureStep(g, line, n, s), false);
    }
  }

  /** Without face lines, the loop finishes no object and leaves the object being read untouched. */
  lemma {:induction false} NoFaceLinesFinishNothing(g: ReadState, inHead: bool, lines: seq<string>, k: nat, s: ReadSetting)
    requires Untouched(g.current)
    requires forall i :: 0 <= i < |lines| ==> !TagMatches(lines[i], |lines[i]|, "f")
    ensures var (g', stop) := ReadAll(g, inHead, lines, k, s);
      !stop && Untouched(g'.current) && g'.roots == g.roots && g'.errors == g.errors
    decreases |lines| - k
  {
    if k < |lines| {
      NonFaceLineFinishesNothing(g, inHead, lines[k], |lines[k]|, s);
      var (g', inHead', stop) := LineStep(g, inHead, lines[k], |lines[k]|, s);
      NoFaceLinesFinishNothing(g', inHead', lines, k + 1, s);
    }
  }

  /** A file without face lines yields no object and no error object. */
  lemma NoFaceNoObject(g: ReadState, lines: seq<string>, k: nat, s: ReadSetting)
    requires forall i :: 0 <= i < |lines| ==> !TagMatches(lines[i], |lines[i]|, "f")
    ensures ReadFile(g, lines, k, s).roots == g.roots && ReadFile(g, lines, k, s).errors == g.errors
  {
    NoFaceLinesFinishNothing(g.(current := NewObject), true, lines, k, s);
  }

  /** Every vertex of `d` is a position of the pool, or the zero an index outside the pool reads. */
  predicate FromPool(d: ObjectData, pool: seq<Vec3>)
  {
    forall v :: v in d.vertices ==> v in pool || v == Zero3
  }

  /** The vertices of the object being read and of every finished object come from the pool. */
  predicate AllFromPool(g: ReadState)
  {
    FromPool(g.current, g.vertices) && forall i :: 0 <= i < |g.roots| ==> FromPool(g.roots[i], g.vertices)
  }

  /** A face's corners come from the pool. */
  lemma CornersFromPool(d: ObjectData, f: FaceScan, pv: seq<Vec3>, pn: seq<Vec3>, pt: seq<Vec2>)
    requires |f.refs| == 3 && FromPool(d, pv)
    ensures FromPool(FaceData(d, f, pv, pn, pt), pv)
  {
    var c := VertexCorners(f.refs, pv);
    assert forall v :: v in c ==> v in pv || v == Zero3;
  }

  /** Finishing an object keeps every vertex in the pool. */
  lemma FinishFromPool(g: ReadState)
    requires AllFromPool(g)
    ensures AllFromPool(Finish(g))
  {
    var r := Finish(g).roots;
    forall i | 0 <= i < |r| ensures FromPool(r[i], g.vertices) {
      if i == |g.roots| {
        assert r[i].vertices == g.current.vertices;
      }
    }
  }

  /** A pool line only grows the pools. */
  lemma PoolStepFromPool(g: ReadState, line: string, n: nat, sc: Scanner)
    requires AllFromPool(g)
    ensures AllFromPool(PoolStep(g, line, n, sc))
  {
    var g' := PoolStep(g, line, n, sc);
    assert forall v :: v in g.vertices ==> v in g'.vertices;
  }

  /** An `o`, `g`, `mtllib` or `usemtl` line keeps every vertex of every object in the pool. */
  lemma StructureStepFromPool(g: ReadState, line: string, n: nat, s: ReadSetting)
    requires AllFromPool(g)
    ensures AllFromPool(StructureStep(g, line, n, s))
  {
    if TagMatches(line, n, "o") || (TagMatches(line, n, "g") && After(line, 2) != "default") {
      FinishFromPool(g);
    }
  }

  /** An `f` line keeps every vertex of every object in the pool. */
  lemma FaceStepFromPool(g: ReadState, f: FaceScan, s: ReadSetting)
    requires AllFromPool(g)
    ensures AllFromPool(FaceStep(g, f, s).0)
  {
    if !g.current.hasReadingError && Accepted(f) {
      CornersFromPool(g.current, f, g.vertices, g.normals, g.texcoords);
    }
  }

  /** One line keeps every vertex of every object in the pool. */
  lemma LineStepFromPool(g: ReadState, inHead: bool, line: string, n: nat, s: ReadSetting)
    requires AllFromPool(g)
    ensures AllFromPool(LineStep(g, inHead, line, n, s).0)
  {
    if inHead && TagMatches(line, n, "#") && MarksMillimeters(line) {
    } else if IsPoolLine(line, n) {
      PoolStepFromPool(g, line, n, s.sc);
    } else if TagMatches(line, n, "f") {
      FaceStepFromPool(g, LineFace(g, line, s), s);
    } else {
      StructureStepFromPool(g, line, n, s);
    }
  }

  /** The loop keeps every vertex of every object in the pool. */
  lemma {:induction false} ReadAllFromPool(g: ReadState, inHead: bool, lines: seq<string>, k: nat, s: ReadSetting)
    requires AllFromPool(g)
    ensures AllFromPool(ReadAll(g, inHead, lines, k, s).0)
    decreases |lines| - k
  {
    if k < |lines| {
      LineStepFromPool(g, inHead, lines[k], |lines[k]|, s);
      var (g', inHead', stop) := LineStep(g, inHead, lines[k], |lines[k]|, s);
      if !stop {
        ReadAllFromPool(g', inHead', lines, k + 1, s);
      }
    }
  }

  /**
   * Every vertex of every object a new reader finishes is the position of a
   * `v` line of the file, or the zero an index outside the pool reads.
   */
  lemma ObjectVerticesFromVertexLines(lines: seq<string>, s: ReadSetting)
    ensures var g := ReadFile(StartState, lines, 0, s);
      forall i :: 0 <= i < |g.roots| ==> FromPool(g.roots[i], g.vertices)
  {
    ReadAllFromPool(StartState, true, lines, 0, s);
    var (g', stop) := ReadAll(StartState, true, lines, 0, s);
    if !stop {
      FinishFromPool(g');
    }
  }

  /**
   * The reader of one OBJ file. The file is given as its lines (`None` when
   * it cannot be opened), the material libraries by path, and the lexer and
   * `sscanf` as a `Scanner`; `blank` is the material a library starts from.
   * The object being read is held as its fields (`current`) and becomes an
   * `ObjObject` when it is finished.
   */
  class ObjFileReader {
    const file: Option<seq<string>>
    const dir: string
    const libraries: string -> Option<seq<string>>
    const sc: Scanner
    const blank: ObjMaterial

    /** The line buffer: the next line to read, the text, its recorded length and the line count. */
    var pos: nat
    var line: string
    var lineLength: nat
    var lineNumber: nat

    var readVertices: seq<Vec3>
    var readNormals: seq<Vec3>
    var readTexcoords: seq<Vec2>
    var bbox: BoundingBox
    var firstVertex: bool
    var autoScale: bool

    var current: ObjectData
    var rootObjects: seq<ObjObject>
    var errorObjects: seq<ObjObject>
    var materials: seq<ObjMaterial>
    var firstObjectSurfaceData: bool
    var stopOnError: bool
    var hasError: bool

    constructor (file: Option<seq<string>>, dir: string, libraries: string -> Option<seq<string>>, sc: Scanner, blank: ObjMaterial)
      ensures this.file == file && this.dir == dir && this.libraries == libraries && this.sc == sc && this.blank == blank
      ensures pos == 0 && line == "" && lineLength == 0 && lineNumber == 0
      ensures readVertices == [] && readNormals == [] && readTexcoords == [] && firstVertex && !autoScale
      ensures current == NewObject && rootObjects == [] && errorObjects == [] && materials == []
      ensures firstObjectSurfaceData && !stopOnError && !hasError
      ensures Valid() && State() == StartState
    {
      this.file, this.dir, this.libraries, this.sc, this.blank := file, dir, libraries, sc, blank;
      pos, line, lineLength, lineNumber := 0, "", 0, 0;
      readVertices, readNormals, readTexcoords := [], [], [];
      bbox, firstVertex, autoScale := DefaultBox, true, false;
      current, rootObjects, errorObjects, materials := NewObject, [], [], [];
      firstObjectSurfaceData, stopOnError, hasError := true, false, false;
    }

    function Lines(): seq<string>
      reads this
    {
      if file.Some? then file.value else []
    }

    /**
     * The reader's invariant: the finished objects are complete and distinctly
     * named, every error object is flagged and recorded once, the bounding box
     * is that of the vertices read, and the error flag is set exactly when an
     * object had a face error.
     */
    predicate Valid()
      reads this
    {
      RootsValid(rootObjects, |materials|) && ErrorsValid(errorObjects) && ReadBox(firstVertex, readVertices, bbox) && pos <= |Lines()| && (hasError <==> |errorObjects| > 0)
    }

    /** The state inside the line loop: the object being read is valid, and its face error counts. */
    predicate Reading()
      reads this
    {
      RootsValid(rootObjects, |materials|) && ErrorsValid(errorObjects) && ReadBox(firstVertex, readVertices, bbox) && pos <= |Lines()| && CurrentValid(current, firstObjectSurfaceData, |materials|)
      && (hasError <==> |errorObjects| > 0 || current.hasReadingError)
    }

    /** What the reader has gathered, the objects by their fields. */
    function State(): ReadState
      reads this
    {
      ReadState(readVertices, readNormals, readTexcoords, autoScale, current, firstObjectSurfaceData,
                DataOf(rootObjects), DataOf(errorObjects), materials, hasError)
    }

    /** The loop's state is kept when only the object being read and the error flag change, and they stay valid. */
    twostate lemma ReadingKept()
      requires old(Reading())
      requires unchanged(this`readVertices, this`bbox, this`firstVertex, this`rootObjects, this`errorObjects, this`materials, this`pos)
      requires CurrentValid(current, firstObjectSurfaceData, |materials|) && (hasError <==> |errorObjects| > 0 || current.hasReadingError)
      ensures Reading()
    {
    }

    /** A stop on a face leaves the reader valid: the object being read had no face error. */
    twostate lemma StopKept()
      requires old(Reading()) && !old(current.hasReadingError)
      requires unchanged(this`readVertices, this`bbox, this`firstVertex, this`rootObjects, this`errorObjects, this`materials, this`pos, this`hasError)
      ensures Valid()
    {
    }

    /** Finishing the object being read and beginning a new one keeps the loop's state. */
    twostate lemma FinishKept()
      requires old(Reading())
      requires unchanged(this`readVertices, this`readNormals, this`readTexcoords, this`autoScale, this`bbox, this`firstVertex,
        this`materials, this`pos, this`hasError)
      requires current == NewObject && firstObjectSurfaceData
      requires RootsValid(rootObjects, |materials|) && ErrorsValid(errorObjects)
      requires FinishedAs(old(current), old(rootObjects), old(errorObjects), rootObjects, errorObjects)
      requires DataOf(rootObjects) == FinishedRoots(old(current), DataOf(old(rootObjects)))
      requires DataOf(errorObjects) == FinishedErrors(old(current), DataOf(old(errorObjects)))
      ensures Reading() && State() == Finish(old(State()))
    {
    }

    /** A pool line keeps the loop's state when the box stays that of the vertices. */
    twostate lemma PoolKept()
      requires old(Reading())
      requires unchanged(this`autoScale, this`current, this`firstObjectSurfaceData, this`rootObjects, this`errorObjects,
        this`materials, this`pos, this`hasError)
      requires ReadBox(firstVertex, readVertices, bbox)
      ensures Reading() && State() == old(State()).(vertices := readVertices, normals := readNormals, texcoords := readTexcoords)
    {
    }

    /** Only the object being read, its first-face flag and the error flag changed. */
    twostate lemma StateKeeps()
      requires unchanged(this`readVertices, this`readNormals, this`readTexcoords, this`autoScale, this`rootObjects,
        this`errorObjects, this`materials)
      ensures State() == old(State()).(current := current, first := firstObjectSurfaceData, hasError := hasError)
    {
    }

    /** What the reader was given. */
    function Setting(): ReadSetting
      reads this
    {
      ReadSetting(dir, libraries, sc, blank, stopOnError)
    }


    /** `setStopOnError`. */
    method SetStopOnError(value: bool)
      modifies this`stopOnError
      ensures stopOnError == value
    {
      stopOnError := value;
    }

    /** `error()`: the error flag, set by a face error when the reader does not stop on errors. */
    method Error() returns (b: bool)
      requires Valid()
      ensures b <==> |errorObjects| > 0
    {
      b := hasError;
    }

    /** `getObjects`: the finished objects, in the order they were finished. */
    method GetObjects() returns (objs: seq<ObjObject>)
      requires Valid()
      ensures objs == rootObjects && RootsValid(objs, |materials|)
    {
      objs := rootObjects;
    }

    /** `getErrorObjects`: the objects that had a face error, each once. */
    method GetErrorObjects() returns (objs: seq<ObjObject>)
      requires Valid()
      ensures objs == errorObjects && ErrorsValid(objs)
    {
      objs := errorObjects;
    }

    /** `getMaterials`. */
    method GetMaterials() returns (ms: seq<ObjMaterial>)
      ensures ms == materials
    {
      ms := materials;
    }

    /** `nextLine`: the next line into the buffer; the length and the count change only when there was one. */
    method NextLine() returns (more: bool)
      modifies this`pos, this`line, this`lineLength, this`lineNumber
      ensures more <==> old(pos) < |Lines()|
      ensures more ==> pos == old(pos) + 1 && line == Lines()[old(pos)] && lineLength == |line| && lineNumber == old(lineNumber) + 1
      ensures !more ==> pos == old(pos) && line == old(line) && lineLength == old(lineLength) && lineNumber == old(lineNumber)
      ensures old(Reading()) ==> Reading()
      ensures State() == old(State())
    {
      if pos < |Lines()| {
        line := Lines()[pos];
        lineLength := |line|;
        lineNumber := lineNumber + 1;
        pos := pos + 1;
        return true;
      }
      return false;
    }

    /** `isLine`: the tag's characters, then a space within the recorded length. */
    method IsLine(tag: string) returns (b: bool)
      requires IsTag(tag)
      ensures b == TagMatches(line, lineLength, tag)
    {
      var i := 0;
      while i < |tag|
        invariant 0 <= i <= |tag| && forall k :: 0 <= k < i ==> CharAt(line, k) == tag[k]
      {
        if CharAt(line, i) != tag[i] {
          return false;
        }
        i := i + 1;
      }
      assert i <= |line| ==> line[..i] == tag;
      return i < lineLength && CharAt(line, i) == ' ';
    }

    /** `sameNameObjectAlreadyExist`: whether a finished object has the name. */
    method SameNameObjectAlreadyExist(name: string) returns (b: bool)
      ensures b <==> name in NamesOf(rootObjects)
    {
      for i := 0 to |rootObjects|
        invariant forall k :: 0 <= k < i ==> rootObjects[k].name != name
      {
        if rootObjects[i].name == name {
          return true;
        }
      }
      return false;
    }

    /** The renaming loop of `finalizeObject`: the name itself, or `name_k` for the first free `k` from 2. */
    method UniqueObjectName(name: string) returns (r: string)
      ensures r == UniqueName(NamesOf(rootObjects), name)
    {
      var taken := SameNameObjectAlreadyExist(name);
      if !taken {
        return name;
      }
      ghost var names := NamesOf(rootObjects);
      var index := 2;
      while true
        invariant index >= 2 && forall i :: 2 <= i < index ==> Suffixed(name, i) in names
        decreases TakenFrom(names, name, index)
      {
        var objName := Suffixed(name, index);
        var exists_ := SameNameObjectAlreadyExist(objName);
        if !exists_ {
          assert FirstFree(names, name, index);
          UniqueNameOfIsFunctional(names, name, objName);
          return objName;
        }
        TakenFromShrinks(names, name, index);
        index := index + 1;
      }
    }

    /** `getMaterialByName`: the position of the first material with the name. */
    method GetMaterialByName(name: string) returns (r: Option<nat>)
      ensures FirstNamed(materials, name, r)
    {
      for i := 0 to |materials|
        invariant forall k :: 0 <= k < i ==> materials[k].name != name
      {
        if materials[i].name == name {
          return Some(i);
        }
      }
      return None;
    }

    /** A `v` line: the vertex after the tag, scaled by 1/100 under the millimetre marker, into the pool and the box. */
    method ReadVertexLine()
      requires Reading()
      modifies this`readVertices, this`bbox, this`firstVertex
      ensures var v := sc.vec3(After(line, 2));
        readVertices == old(readVertices) + [if autoScale then Scaled(v) else v]
      ensures State() == old(State()).(vertices := readVertices)
      ensures Reading() && !firstVertex
    {
      var v := sc.vec3(After(line, 2));
      if autoScale {
        v := Scaled(v);
      }
      ReadBoxGrows(firstVertex, readVertices, bbox, v);
      if firstVertex {
        bbox := PointBox(v);
        firstVertex := false;
      } else {
        bbox := Extend(bbox, v);
      }
      readVertices := readVertices + [v];
      PoolKept();
    }

    /** A `vn` line: the normal after the tag into the pool. */
    method ReadNormalLine()
      requires Reading()
      modifies this`readNormals
      ensures readNormals == old(readNormals) + [sc.vec3(After(line, 3))]
      ensures State() == old(State()).(normals := readNormals)
      ensures Reading()
    {
      readNormals := readNormals + [sc.vec3(After(line, 3))];
      PoolKept();
    }

    /** A `vt` line: the texcoord after the tag into the pool. */
    method ReadTexcoordLine()
      requires Reading()
      modifies this`readTexcoords
      ensures readTexcoords == old(readTexcoords) + [sc.vec2(After(line, 3))]
      ensures State() == old(State()).(texcoords := readTexcoords)
      ensures Reading()
    {
      readTexcoords := readTexcoords + [sc.vec2(After(line, 3))];
      PoolKept();
    }

    /** The face an `f` line describes for the object being read. */
    function Face(): FaceScan
      reads this
    {
      LineFace(State(), line, Setting())
    }

    /** `readSurfaceLine`: an accepted face is appended to the object being read and ends its first face. */
    method ReadSurfaceLine(ghost f: FaceScan) returns (ok: bool)
      requires Reading() && !current.hasReadingError && f == Face()
      modifies this`current, this`firstObjectSurfaceData
      ensures ok == Accepted(f)
      ensures ok ==> current == FaceData(old(current), f, readVertices, readNormals, readTexcoords)
                     && !firstObjectSurfaceData
      ensures ok ==> Reading() && State() == old(State()).(current := current, first := false)
      ensures !ok ==> current == old(current) && firstObjectSurfaceData == old(firstObjectSurfaceData)
    {
      var d;
      ok, d := AddFace(current, sc.face(After(line, 2)), firstObjectSurfaceData, readVertices, readNormals, readTexcoords, |materials|);
      if ok {
        current, firstObjectSurfaceData := d, false;
        ReadingKept();
        StateKeeps();
      }
    }
 
    /**
     * An `f` line: skipped once the object being read has a face error; a
     * refused face stops the reader when it stops on errors, and otherwise
     * flags the object and the reader.
     */
    method ReadFaceLine() returns (stop: bool)
      requires Reading()
      modifies this`current, this`firstObjectSurfaceData, this`hasError
      ensures (State(), stop) == FaceStep(old(State()), old(Face()), Setting())
      ensures !stop ==> Reading()
      ensures stop ==> Valid() && stopOnError && hasError == old(hasError)
    {
      if current.hasReadingError {
        return false;
      }
      ghost var f := Face();
      var ok := ReadSurfaceLine(f);
      if ok {
        return false;
      }
      StateKeeps();
      if stopOnError {
        StopKept();
        return true;
      }
      FlagObject();
      return false;
    }

    /** The object being read and the reader are flagged with a face error. */
    method FlagObject()
      requires Reading() && !current.hasReadingError
      modifies this`current, this`hasError
      ensures Reading() && State() == old(State()).(current := old(current).(hasReadingError := true), hasError := true)
    {
      hasError := true;
      FlaggedValid(current, firstObjectSurfaceData, |materials|);
      current := current.(hasReadingError := true);
      ReadingKept();
      StateKeeps();
    }

    /** `markObjectError`: the flagged object joins the error objects unless it is there already. */
    method MarkObjectError(obj: ObjObject)
      modifies this`errorObjects
      ensures errorObjects == old(errorObjects) + if obj in old(errorObjects) then [] else [obj]
      ensures old(ErrorsValid(errorObjects)) && obj.hasReadingError ==> ErrorsValid(errorObjects)
    {
      for i := 0 to |errorObjects|
        invariant forall k :: 0 <= k < i ==> errorObjects[k] != obj
      {
        if errorObjects[i] == obj {
          return;
        }
      }
      if ErrorsValid(errorObjects) && obj.hasReadingError {
        ErrorsValidAppend(errorObjects, obj);
      }
      errorObjects := errorObjects + [obj];
    }

    /** The finishing of a complete object: renamed apart from the finished objects, given its mesh, and added to them. */
    method AddRootObject(d: ObjectData) returns (obj: ObjObject)
      requires RootsValid(rootObjects, |materials|) && Complete(d, |materials|)
      modifies this`rootObjects
      ensures fresh(obj) && fresh(obj.mesh)
      ensures rootObjects == old(rootObjects) + [obj]
      ensures obj.Data() == d.(name := UniqueName(NamesOf(old(rootObjects)), d.name)) && MeshHolds(obj)
      ensures RootsValid(rootObjects, |materials|)
    {
      var name := UniqueObjectName(d.name);
      obj := new ObjObject(d.(name := name));
      RootsValidAppend(rootObjects, |materials|, obj);
      rootObjects := rootObjects + [obj];
      CreateObjectMesh(obj);
    }

    /** The finishing of an object with a face error: it joins the error objects. */
    method AddErrorObject(d: ObjectData) returns (obj: ObjObject)
      requires ErrorsValid(errorObjects) && d.hasReadingError
      modifies this`errorObjects
      ensures fresh(obj) && obj.Data() == d
      ensures errorObjects == old(errorObjects) + [obj] && ErrorsValid(errorObjects)
    {
      obj := new ObjObject(d);
      MarkObjectError(obj);
    }

    /**
     * The first part of `finalizeObject`: the object being read joins the
     * error objects when it had a face error, is dropped when it has no
     * vertex, and otherwise is renamed apart from the finished objects, given
     * its mesh and added to them.
     */
    method FinishObject(d: ObjectData)
      requires RootsValid(rootObjects, |materials|) && ErrorsValid(errorObjects) && Consistent(d) && MaterialBelow(d, |materials|)
      modifies this`rootObjects, this`errorObjects
      ensures FinishedAs(d, old(rootObjects), old(errorObjects), rootObjects, errorObjects)
      ensures DataOf(rootObjects) == FinishedRoots(d, DataOf(old(rootObjects)))
      ensures DataOf(errorObjects) == FinishedErrors(d, DataOf(old(errorObjects)))
      ensures !d.hasReadingError && d.vertices != [] ==> MeshHolds(rootObjects[|old(rootObjects)|])
      ensures RootsValid(rootObjects, |materials|) && ErrorsValid(errorObjects)
    {
      if d.hasReadingError {
        var obj := AddErrorObject(d);
      } else if |d.vertices| > 0 {
        var obj := AddRootObject(d);
      }
      FinishedAsData(d, old(rootObjects), old(errorObjects), rootObjects, errorObjects);
    }

    /** `finalizeObject`: the object being read is finished, and a new one is begun. */
    method FinalizeObject()
      requires Reading()
      modifies this`current, this`firstObjectSurfaceData, this`rootObjects, this`errorObjects
      ensures current == NewObject && firstObjectSurfaceData
      ensures Reading()
      ensures FinishedAs(old(current), old(rootObjects), old(errorObjects), rootObjects, errorObjects)
      ensures State() == Finish(old(State()))
      ensures !old(current.hasReadingError) && old(current.vertices) != [] ==> MeshHolds(rootObjects[|old(rootObjects)|])
    {
      FinishObject(current);
      current := NewObject;
      firstObjectSurfaceData := true;
      FinishKept();
    }

    /** An `o` line: the object being read is finished, and the next one is named by the text after the tag. */
    method ReadObjectLine()
      requires Reading()
      modifies this`current, this`firstObjectSurfaceData, this`rootObjects, this`errorObjects
      ensures current == NewObject.(name := After(line, 2)) && firstObjectSurfaceData
      ensures Reading()
      ensures FinishedAs(old(current), old(rootObjects), old(errorObjects), rootObjects, errorObjects)
      ensures State() == Finish(old(State())).(current := NewObject.(name := After(line, 2)))
    {
      FinalizeObject();
      current := current.(name := After(line, 2));
    }

    /** The group names of a `g` line recorded on the object being read, which they name. */
    method NameObject(groups: seq<string>)
      requires Reading()
      modifies this`current
      ensures current == old(current).(groupNames := old(current).groupNames + groups, name := JoinGroups(groups))
      ensures Reading() && State() == old(State()).(current := current)
    {
      current := NameFromGroups(current, groups);
      StateKeeps();
    }

    /**
     * A `g` line: ignored when it names the group `default`; otherwise the
     * object being read is finished, and the next one records the group
     * names and is named by them joined with `_`.
     */
    method ReadGroupLine()
      requires Reading()
      modifies this`current, this`firstObjectSurfaceData, this`rootObjects, this`errorObjects
      ensures After(line, 2) == "default" ==>
        current == old(current) && firstObjectSurfaceData == old(firstObjectSurfaceData)
        && rootObjects == old(rootObjects) && errorObjects == old(errorObjects)
      ensures After(line, 2) != "default" ==>
        var groups := sc.identifiers(After(line, 2));
        current == NewObject.(groupNames := groups, name := JoinGroups(groups)) && firstObjectSurfaceData
      ensures Reading()
      ensures After(line, 2) != "default" ==> FinishedAs(old(current), old(rootObjects), old(errorObjects), rootObjects, errorObjects)
      ensures State() == if After(line, 2) == "default" then old(State())
        else var groups := sc.identifiers(After(line, 2));
          Finish(old(State())).(current := NewObject.(groupNames := groups, name := JoinGroups(groups)))
    {
      if After(line, 2) != "default" {
        FinalizeObject();
        NameObject(sc.identifiers(After(line, 2)));
        assert [] + sc.identifiers(After(line, 2)) == sc.identifiers(After(line, 2));
      }
    }

    /** A property line of a material library (any tag but `newmtl`): the field it names, set from the text after the tag. */
    method ReadProperty(m: ObjMaterial) returns (r: ObjMaterial)
      requires !TagMatches(line, lineLength, "newmtl")
      ensures r == WithProperty(m, line, lineLength, sc)
    {
      r := m;
      var isNs := IsLine("Ns");
      if isNs {
        var v := sc.number(After(line, 3));
        if v.Some? {
          r := m.(shininess := v.value);
        }
        return;
      }
      var isKa := IsLine("Ka");
      if isKa {
        var c := sc.color(After(line, 3));
        if c.Some? {
          r := m.(ambient := c.value);
        }
        return;
      }
      var isKd := IsLine("Kd");
      if isKd {
        var c := sc.color(After(line, 3));
        if c.Some? {
          r := m.(diffuse := c.value);
        }
        return;
      }
      var isKs := IsLine("Ks");
      if isKs {
        var c := sc.color(After(line, 3));
        if c.Some? {
          r := m.(specular := c.value);
        }
        return;
      }
      var isTf := IsLine("Tf");
      if isTf {
        var c := sc.color(After(line, 3));
        if c.Some? {
          r := m.(transparency := TfTransparency(c.value));
        }
        return;
      }
      var isMapKd := IsLine("map_Kd");
      if isMapKd {
        r := m.(textureFilename := After(line, 7));
        return;
      }
      var isMapBump := IsLine("map_Bump");
      if isMapBump {
        if |line| >= 12 && line[9..12] == "-bm" {
          r := m.(normalmapFilename := sc.bumpFile(After(line, 13)));
        } else {
          r := m.(normalmapFilename := After(line, 9));
        }
        return;
      }
      var isNormalMap := IsLine("map_t_normal");
      if isNormalMap {
        r := m.(normalmapFilename := After(line, 13));
      }
    }

    /**
     * One line of a material library, read into the line buffer: a `newmtl`
     * line adds the material read so far, if any, and starts the next one;
     * any other line sets a field of the material being read.
     */
    method ReadMaterialLine(l: string, st: LibraryState) returns (r: LibraryState)
      modifies this`materials, this`line, this`lineLength
      ensures line == l && lineLength == |l|
      ensures r == LibraryLine(Corrected, st, l, |l|, sc)
      ensures materials == old(materials) + r.out[|st.out|..]
    {
      line := l;
      lineLength := |l|;
      var isNew := IsLine("newmtl");
      if isNew {
        if st.hasMat {
          materials := materials + [st.mat];
        }
        r := LibraryState(Reset(st.mat).(name := After(line, 7)), true, st.out + if st.hasMat then [st.mat] else []);
      } else {
        var mat := ReadProperty(st.mat);
        r := st.(mat := mat);
      }
    }

    /**
     * `readMaterialLibrary`, with the length of each library line taken for
     * the tag test: an unreadable library adds nothing; otherwise the
     * materials it defines follow those already read.
     */
    method ReadMaterialLibrary(path: string)
      requires RootsValid(rootObjects, |materials|) && MaterialBelow(current, |materials|)
      modifies this`materials, this`line, this`lineLength
      ensures libraries(path).None? ==> materials == old(materials) && line == old(line) && lineLength == old(lineLength)
      ensures libraries(path).Some? ==> materials == old(materials) + Library(Corrected, libraries(path).value, 0, blank, sc)
      ensures RootsValid(rootObjects, |materials|) && MaterialBelow(current, |materials|)
    {
      if libraries(path).None? {
        return;
      }
      var ls := libraries(path).value;
      ghost var m0 := materials;
      var st := LibraryState(blank, false, []);
      for i := 0 to |ls|
        invariant LibraryLines(Corrected, LibraryState(blank, false, []), ls[..i], 0, sc) == st
        invariant materials == m0 + st.out
      {
        LibraryLinesSnoc(Corrected, LibraryState(blank, false, []), ls[..i], ls[i], 0, sc);
        assert ls[..i + 1] == ls[..i] + [ls[i]];
        st := ReadMaterialLine(ls[i], st);
      }
      if st.hasMat {
        materials := materials + [st.mat];
      }
      assert ls[..|ls|] == ls;
      RootsValidGrows(rootObjects, |m0|, |materials|);
    }

    /** An `mtllib` line: the library named after the tag, in the directory of the file when it has one. */
    method ReadLibraryLine()
      requires Reading()
      modifies this`materials, this`line, this`lineLength
      ensures materials == old(materials) + LibraryRead(Setting(), LibraryPath(dir, After(old(line), 7)))
      ensures State() == old(State()).(materials := materials)
      ensures Reading()
    {
      var path := LibraryPath(dir, After(line, 7));
      ReadMaterialLibrary(path);
    }

    /** A `usemtl` line: the first material with the name after the tag, or else the name, is recorded on the object being read. */
    method ReadUseMaterialLine() returns (r: Option<nat>)
      requires Reading()
      modifies this`current
      ensures FirstNamed(materials, After(line, 7), r) && r == FirstNamedIndex(materials, After(line, 7))
      ensures State() == old(State()).(current := current)
      ensures current == if r.None? then old(current).(selectedMatName := After(line, 7)) else old(current).(material := r)
      ensures Reading()
    {
      var name := After(line, 7);
      r := GetMaterialByName(name);
      FirstNamedUnique(materials, name, r, FirstNamedIndex(materials, name));
      if r.None? {
        current := current.(selectedMatName := name);
      } else {
        current := current.(material := r);
      }
      ReadingKept();
      StateKeeps();
    }

    /** A `v`, `vn` or `vt` line, if the line is one: its vertex, normal or texcoord into the pool. */
    method ReadPoolLine() returns (matched: bool)
      requires Reading()
      modifies this`readVertices, this`readNormals, this`readTexcoords, this`bbox, this`firstVertex
      ensures Reading()
      ensures matched <==> IsPoolLine(line, lineLength)
      ensures State() == PoolStep(old(State()), line, lineLength, sc)
    {
      matched := TagMatches(line, lineLength, "v");
      if matched {
        ReadVertexLine();
      } else {
        matched := TagMatches(line, lineLength, "vn");
        if matched {
          ReadNormalLine();
        } else {
          matched := TagMatches(line, lineLength, "vt");
          if matched {
            ReadTexcoordLine();
          }
        }
      }
    }

    /** An `o`, `g`, `mtllib` or `usemtl` line, if the line is one; other lines are ignored. */
    method ReadStructureLine()
      requires Reading()
      modifies this`current, this`firstObjectSurfaceData, this`rootObjects, this`errorObjects, this`materials,
        this`line, this`lineLength
      ensures Reading()
      ensures State() == StructureStep(old(State()), old(line), old(lineLength), Setting())
    {
      var isObject := TagMatches(line, lineLength, "o");
      if isObject {
        ReadObjectLine();
      } else {
        var isGroup := TagMatches(line, lineLength, "g");
        if isGroup {
          ReadGroupLine();
        } else {
          var isLibrary := TagMatches(line, lineLength, "mtllib");
          if isLibrary {
            ReadLibraryLine();
          } else {
            var isUse := TagMatches(line, lineLength, "usemtl");
            if isUse {
              var _ := ReadUseMaterialLine();
            }
          }
        }
      }
    }

    /**
     * A line read by its tag; `stop` is a refused face when the reader stops
     * on errors. Here and in the other line handlers the tag test is
     * `TagMatches`, the value `IsLine` computes.
     */
    method ReadTaggedLine() returns (stop: bool)
      requires Reading()
      modifies this`current, this`firstObjectSurfaceData, this`rootObjects, this`errorObjects, this`materials,
        this`line, this`lineLength, this`readVertices, this`readNormals, this`readTexcoords, this`bbox,
        this`firstVertex, this`hasError
      ensures !stop ==> Reading()
      ensures stop ==> Valid() && stopOnError
      ensures stopOnError ==> hasError == old(hasError)
      ensures (State(), stop) == TaggedStep(old(State()), old(line), old(lineLength), Setting())
    {
      stop := false;
      if IsPoolLine(line, lineLength) {
        var _ := ReadPoolLine();
      } else if TagMatches(line, lineLength, "f") {
        stop := ReadFaceLine();
      } else {
        ReadStructureLine();
      }
    }

    /**
     * One line of the file. A comment in the head block that names 3ds Max or
     * millimetres turns on the scaling of vertices and ends the block; any
     * other line than a comment ends it too. The line is then read by its tag.
     */
    method ReadLine(inHead: bool) returns (stillHead: bool, stop: bool)
      requires Reading()
      modifies this`current, this`firstObjectSurfaceData, this`rootObjects, this`errorObjects, this`materials,
        this`line, this`lineLength, this`readVertices, this`readNormals, this`readTexcoords, this`bbox,
        this`firstVertex, this`autoScale, this`hasError
      ensures !stop ==> Reading()
      ensures stop ==> Valid() && stopOnError
      ensures stopOnError ==> hasError == old(hasError)
      ensures (State(), stillHead, stop) == LineStep(old(State()), inHead, old(line), old(lineLength), Setting())
    {
      stillHead, stop := inHead, false;
      var comment := TagMatches(line, lineLength, "#");
      if inHead && comment {
        if MarksMillimeters(line) {
          autoScale := true;
          stillHead := false;
          return;
        }
      } else {
        stillHead := false;
      }
      stop := ReadTaggedLine();
    }

    /** One turn of the line loop: the next line, when there is one, read by `ReadLine`. */
    method ReadNextLine(inHead: bool) returns (more: bool, stillHead: bool, stop: bool)
      requires Reading()
      modifies this`pos, this`lineNumber, this`current, this`firstObjectSurfaceData, this`rootObjects,
        this`errorObjects, this`materials, this`line, this`lineLength, this`readVertices, this`readNormals,
        this`readTexcoords, this`bbox, this`firstVertex, this`autoScale, this`hasError
      ensures more <==> old(pos) < |Lines()|
      ensures more ==> pos == old(pos) + 1
      ensures !more ==> pos == old(pos) && State() == old(State()) && !stop
      ensures !stop ==> Reading()
      ensures stop ==> Valid() && stopOnError
      ensures stopOnError ==> hasError == old(hasError)
      ensures more ==> ReadAll(old(State()), inHead, Lines(), old(pos), Setting())
                       == if stop then (State(), true) else ReadAll(State(), stillHead, Lines(), pos, Setting())
    {
      ghost var k := pos;
      more := NextLine();
      if !more {
        return false, inHead, false;
      }
      ghost var g := State();
      stillHead, stop := ReadLine(inHead);
      ReadAllStep(g, inHead, Lines(), k, Setting(), State(), stillHead, stop);
    }

    /**
     * The line loop of `read`: every line in turn, starting in the head
     * comment block, until the end of the file or a refused face when the
     * reader stops on errors.
     */
    method ReadLines() returns (stop: bool)
      requires Reading()
      modifies this`pos, this`lineNumber, this`current, this`firstObjectSurfaceData, this`rootObjects,
        this`errorObjects, this`materials, this`line, this`lineLength, this`readVertices, this`readNormals,
        this`readTexcoords, this`bbox, this`firstVertex, this`autoScale, this`hasError
      ensures !stop ==> Reading() && pos == |Lines()|
      ensures stop ==> Valid() && stopOnError
      ensures stopOnError ==> hasError == old(hasError)
      ensures (State(), stop) == ReadAll(old(State()), true, Lines(), old(pos), Setting())
    {
      var inHead := true;
      ghost var flagged := hasError;
      ghost var outcome := ReadAll(State(), true, Lines(), pos, Setting());
      while true
        invariant Reading()
        invariant stopOnError ==> hasError == flagged
        invariant ReadAll(State(), inHead, Lines(), pos, Setting()) == outcome
        decreases |Lines()| - pos
      {
        var more;
        more, inHead, stop := ReadNextLine(inHead);
        if !more || stop {
          return;
        }
      }
    }

    /**
     * `read`: nothing when the file cannot be opened; otherwise the lines are
     * read starting with a new object, and unless a refused face stopped the
     * reader, the last object is finished at the end of the file.
     */
    method Read()
      requires Valid()
      modifies this`pos, this`lineNumber, this`current, this`firstObjectSurfaceData, this`rootObjects,
        this`errorObjects, this`materials, this`line, this`lineLength, this`readVertices, this`readNormals,
        this`readTexcoords, this`bbox, this`firstVertex, this`autoScale, this`hasError
      ensures Valid()
      ensures file.None? ==> unchanged(this)
      ensures stopOnError ==> hasError == old(hasError)
      ensures file.Some? && !stopOnError ==> pos == |Lines()| && current == NewObject
      ensures file.Some? ==> State() == ReadFile(old(State()), Lines(), old(pos), Setting())
    {
      if file.None? {
        return;
      }
      ghost var g0 := old(State()).(current := NewObject);
      current := NewObject;
      assert State() == g0;
      var stop := ReadLines();
      ghost var g1 := State();
      if !stop {
        FinalizeObject();
        assert State() == Finish(g1);
        assert Valid();
      }
    }
  }
}
