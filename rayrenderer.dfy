// The ray renderer itself: its settings and the provider they select, the
// transformation of a scene into per-mesh triangle lists before rendering,
// and the division of the image's rows among the render threads.
//
// The scene is read as a value tree of objects. A triangle is known by the
// object and mesh it comes from, its index in the mesh, the matrix that
// transformed it and a serial number that stands for its address: every
// triangle allocated during a transformation gets the next one. Triangle
// geometry, bounding boxes and the space trees' placement are not computed
// here (see SpaceTrees for the placement); a mesh instance records which
// triangles its box spans and which go into its tree.
module RayRenderers {
  import opened Base
  import opened Transforms
  import opened RayShaders

  /** The platform and build the settings' defaults depend on. */
  datatype BuildConfig = DesktopDebug | DesktopRelease | OtherPlatform

  const DefaultRenderWidth: int := 800
  const DefaultRenderHeight: int := 600

  /** PIXEL_BLOCK, 1 on every platform. */
  const PixelBlock: int := 1

  /** RENDER_THREADS, TRACE_PATH_SAMPLES, DOF_SAMPLES and ANTIALIAS_KERNEL_SIZE per build. */
  function RenderThreads(c: BuildConfig): int
  {
    match c
    case DesktopDebug => 7
    case DesktopRelease => 7
    case OtherPlatform => 1
  }

  function TracePathSamples(c: BuildConfig): int
  {
    match c
    case DesktopDebug => 1
    case DesktopRelease => 20
    case OtherPlatform => 100
  }

  function DofSamples(c: BuildConfig): int
  {
    match c
    case DesktopDebug => 1
    case DesktopRelease => 5
    case OtherPlatform => 0
  }

  function AntialiasKernelSize(c: BuildConfig): Byte
  {
    match c
    case DesktopDebug => 1
    case DesktopRelease => 3
    case OtherPlatform => 3
  }

  datatype RendererSettings = RendererSettings(
    resolutionWidth: int, resolutionHeight: int,
    threads: int, samples: int, dofSamples: int,
    shaderProvider: Byte, antialiasKernelSize: Byte,
    enableAntialias: bool, enablePointLightAntialias: bool, enableColorSampling: bool,
    enableRenderingPostProcess: bool, enableBakingPostProcess: bool,
    worldColor: Color3, backColor: Color4)

  /** A default-constructed RendererSettings. */
  function DefaultSettings(c: BuildConfig): RendererSettings
  {
    RendererSettings(
      DefaultRenderWidth, DefaultRenderHeight,
      RenderThreads(c), TracePathSamples(c), DofSamples(c),
      5, AntialiasKernelSize(c),
      true, true, true, true, true,
      Color3(1.0 * 0.8, 0.95 * 0.8, 0.9 * 0.8),
      Color4(1.0 * 0.1, 0.95 * 0.1, 0.9 * 0.1, 0.0 * 0.1))
  }

  /**
   * The defaults render 800×600 with the BSDF provider, at least one thread
   * and one sample per pixel, every feature on and a fully transparent
   * background; a debug build takes one sample.
   */
  lemma DefaultsSelectBSDF(c: BuildConfig)
    ensures var s := DefaultSettings(c);
            ProviderFor(s.shaderProvider) == Some(BSDF) &&
            s.threads >= 1 && s.samples >= 1 && s.dofSamples >= 0 &&
            s.resolutionWidth == 800 && s.resolutionHeight == 600 &&
            s.enableAntialias && s.enableColorSampling && s.enableRenderingPostProcess &&
            s.backColor.a == 0.0
    ensures c == DesktopDebug <==> DefaultSettings(c).samples == 1
  {
  }

  // ---------------------------------------------------------------------
  // The depth of a mesh instance's space tree

  /** ⌊log10 n⌋. */
  function Log10Floor(n: nat): nat
    requires n >= 1
  {
    if n < 10 then 0 else 1 + Log10Floor(n / 10)
  }

  function Pow10(k: nat): nat
  {
    if k == 0 then 1 else 10 * Pow10(k - 1)
  }

  /** `Log10Floor(n)` is the power of ten that brackets n. */
  lemma {:induction false} Log10FloorBrackets(n: nat)
    requires n >= 1
    ensures Pow10(Log10Floor(n)) <= n < Pow10(Log10Floor(n) + 1)
  {
    if n >= 10 {
      Log10FloorBrackets(n / 10);
    }
  }

  /** The largest `size_t`, which `size() - 1` gives for an empty list. */
  const SizeMax: nat := 0xFFFF_FFFF_FFFF_FFFF

  /**
   * The tree level transformObject computes, `(int)log10(size - 1)`, as
   * written. The subtraction is unsigned: an empty list gives log10 of the
   * largest `size_t`. A single triangle gives log10(0), minus infinity, whose
   * conversion to `int` is undefined behaviour (None).
   */
  function TreeLevelAsWritten(size: nat): Option<int>
  {
    if size == 0 then Some(Log10Floor(SizeMax))
    else if size == 1 then None
    else Some(Log10Floor(size - 1))
  }

  /**
   * The level evidently intended: ⌊log10(size - 1)⌋ for two triangles or
   * more, and no subdivision for fewer.
   */
  function TreeLevel(size: nat): (level: nat)
    ensures size >= 2 ==> Some(level as int) == TreeLevelAsWritten(size)
  {
    if size <= 1 then 0 else Log10Floor(size - 1)
  }

  /** A mesh instance's tree is subdivided exactly when it holds eleven triangles or more, to ⌊log10(size - 1)⌋ levels. */
  lemma TreeSplitThreshold(size: nat)
    ensures TreeLevel(size) > 0 <==> size >= 11
    ensures size >= 2 ==> Pow10(TreeLevel(size)) <= size - 1 < Pow10(TreeLevel(size) + 1)
  {
    if size >= 2 {
      Log10FloorBrackets(size - 1);
    }
  }

  /** As written, a mesh with no triangles asks for a tree 19 levels deep. */
  lemma EmptyMeshTreeLevel()
    ensures TreeLevelAsWritten(0) == Some(19)
    ensures TreeLevel(0) == 0
  {
    assert Log10Floor(1) == 0;
    assert Log10Floor(18) == 1;
    assert Log10Floor(184) == 2;
    assert Log10Floor(1844) == 3;
    assert Log10Floor(18446) == 4;
    assert Log10Floor(184467) == 5;
    assert Log10Floor(1844674) == 6;
    assert Log10Floor(18446744) == 7;
    assert Log10Floor(184467440) == 8;
    assert Log10Floor(1844674407) == 9;
    assert Log10Floor(18446744073) == 10;
    assert Log10Floor(184467440737) == 11;
    assert Log10Floor(1844674407370) == 12;
    assert Log10Floor(18446744073709) == 13;
    assert Log10Floor(184467440737095) == 14;
    assert Log10Floor(1844674407370955) == 15;
    assert Log10Floor(18446744073709551) == 16;
    assert Log10Floor(184467440737095516) == 17;
    assert Log10Floor(1844674407370955161) == 18;
  }

  // ---------------------------------------------------------------------
  // The scene as the renderer reads it, and what it builds from it

  /** A scene object, by identity. */
  type ObjectKey = nat

  /** A mesh, by identity; several objects may share one. */
  type MeshKey = nat

  datatype MeshInput = MeshInput(key: MeshKey, triangleCount: nat)

  /** The parts of a scene object transformObject reads. */
  datatype SceneItem = SceneItem(
    key: ObjectKey, visible: bool, renderable: bool, placement: Placement,
    emission: real, meshes: seq<MeshInput>, children: seq<SceneItem>)

  /** The scene: its top-level objects and its main camera, if any, by placement. */
  datatype SceneInput = SceneInput(objects: seq<SceneItem>, mainCamera: Option<Placement>)

  /** A RayRenderTriangle. */
  datatype TriangleRef = TriangleRef(serial: nat, owner: ObjectKey, mesh: MeshKey, index: nat, transform: Matrix)

  /**
   * A RayTransformedMesh: the mesh, the object, its transform, its own
   * triangles, the triangles its bounding box is grown over, whether its
   * tree is subdivided, and the triangles put into that tree.
   */
  datatype MeshInstance = MeshInstance(
    mesh: MeshKey, owner: ObjectKey, transform: Matrix,
    triangles: seq<TriangleRef>, boxCovers: seq<TriangleRef>,
    split: bool, treeEntries: seq<TriangleRef>)

  /** A point light: an emissive object without meshes, with its view-model and normal matrices. */
  datatype PointLight = PointLight(owner: ObjectKey, transform: Matrix, normalTransform: Matrix, angle: Vec3)

  /** What transforming a scene builds inside the renderer; `created` counts the triangles allocated. */
  datatype Built = Built(
    created: nat,
    meshTriangles: map<MeshKey, seq<TriangleRef>>,
    triangleList: seq<TriangleRef>,
    transformedMeshes: seq<MeshInstance>,
    areaLights: seq<ObjectKey>,
    pointLights: seq<PointLight>)

  function Lookup(m: map<MeshKey, seq<TriangleRef>>, k: MeshKey): seq<TriangleRef>
  {
    if k in m then m[k] else []
  }

  /** The first `n` triangles of a mesh, numbered from `serial`. */
  function Fresh(serial: nat, obj: ObjectKey, mesh: MeshKey, vm: Matrix, n: nat): (ts: seq<TriangleRef>)
    ensures |ts| == n
    ensures forall i :: 0 <= i < n ==> ts[i] == TriangleRef(serial + i, obj, mesh, i, vm)
  {
    if n == 0 then [] else Fresh(serial, obj, mesh, vm, n - 1) + [TriangleRef(serial + n - 1, obj, mesh, n - 1, vm)]
  }

  /**
   * One mesh of a renderable object: its triangles are appended to the mesh's
   * list, to the renderer's list and to a new instance, whose box spans them
   * and every triangle of the object's earlier meshes, and whose tree gets
   * the instance's own triangles.
   */
  function AddMesh(b: Built, obj: ObjectKey, mesh: MeshInput, vm: Matrix, box: seq<TriangleRef>): (Built, seq<TriangleRef>)
  {
    var own := Fresh(b.created, obj, mesh.key, vm, mesh.triangleCount);
    var box' := box + own;
    var inst := MeshInstance(mesh.key, obj, vm, own, box', TreeLevel(|own|) > 0, own);
    (b.(created := b.created + mesh.triangleCount,
        meshTriangles := b.meshTriangles[mesh.key := Lookup(b.meshTriangles, mesh.key) + own],
        triangleList := b.triangleList + own,
        transformedMeshes := b.transformedMeshes + [inst]),
     box')
  }

  /**
   * The same step as written: the tree is filled from the mesh's whole list
   * in `meshTriangles`, which also holds the triangles of every earlier
   * object sharing the mesh; the level is `TreeLevelAsWritten`.
   */
  function AddMeshAsWritten(b: Built, obj: ObjectKey, mesh: MeshInput, vm: Matrix, box: seq<TriangleRef>): (Built, seq<TriangleRef>)
  {
    var own := Fresh(b.created, obj, mesh.key, vm, mesh.triangleCount);
    var all := Lookup(b.meshTriangles, mesh.key) + own;
    var box' := box + own;
    var level := TreeLevelAsWritten(|own|);
    var inst := MeshInstance(mesh.key, obj, vm, own, box', level.Some? && level.value > 0, all);
    (b.(created := b.created + mesh.triangleCount,
        meshTriangles := b.meshTriangles[mesh.key := all],
        triangleList := b.triangleList + own,
        transformedMeshes := b.transformedMeshes + [inst]),
     box')
  }

  /** The meshes of one object, in order, with the box carried from one to the next. */
  function AddMeshes(b: Built, obj: ObjectKey, meshes: seq<MeshInput>, vm: Matrix): (Built, seq<TriangleRef>)
  {
    if meshes == [] then (b, [])
    else
      var r := AddMeshes(b, obj, meshes[..|meshes| - 1], vm);
      AddMesh(r.0, obj, meshes[|meshes| - 1], vm, r.1)
  }

  /**
   * What transformObject adds for the object itself: its meshes when it is
   * renderable, then, when it is emissive, an area light if it has meshes
   * (renderable or not) and a point light otherwise.
   */
  function ObjectOwn(b: Built, item: SceneItem, vm: Matrix): Built
  {
    var b1 := if item.renderable && |item.meshes| > 0 then AddMeshes(b, item.key, item.meshes, vm).0 else b;
    if item.emission > 0.0 then
      if |item.meshes| > 0 then b1.(areaLights := b1.areaLights + [item.key])
      else b1.(pointLights := b1.pointLights + [PointLight(item.key, vm, InverseTranspose(vm), item.placement.angle)])
    else b1
  }

  /** transformObject: the object under its model matrix, then its visible children under it. */
  function TransformObjectSpec(b: Built, item: SceneItem, view: Matrix, parent: Matrix): Built
    decreases item
  {
    var model := ObjectMatrix(parent, item.placement);
    TransformChildren(ObjectOwn(b, item, Product(view, model)), item.children, view, model)
  }

  /** The visible objects of `items`, in order, each under `model`. */
  function TransformChildren(b: Built, items: seq<SceneItem>, view: Matrix, model: Matrix): Built
    decreases items
  {
    if items == [] then b
    else
      var b1 := if items[0].visible then TransformObjectSpec(b, items[0], view, model) else b;
      TransformChildren(b1, items[1..], view, model)
  }

  /** What clearTransformedScene leaves: the triangle list and the allocation count are kept. */
  function Cleared(b: Built): Built
  {
    b.(meshTriangles := map[], transformedMeshes := [], areaLights := [], pointLights := [])
  }

  // ---------------------------------------------------------------------
  // Properties of the transformation

  /** What a scene tree contributes: triangles, mesh instances, area and point lights. */
  datatype Census = Census(triangles: nat, instances: nat, areaLights: nat, pointLights: nat)

  function Plus(a: Census, c: Census): Census
  {
    Census(a.triangles + c.triangles, a.instances + c.instances, a.areaLights + c.areaLights, a.pointLights + c.pointLights)
  }

  const NoCensus: Census := Census(0, 0, 0, 0)

  function TriangleSum(meshes: seq<MeshInput>): nat
  {
    if meshes == [] then 0 else TriangleSum(meshes[..|meshes| - 1]) + meshes[|meshes| - 1].triangleCount
  }

  /** An object's own contribution, counted from the object alone. */
  function OwnCensus(item: SceneItem): Census
  {
    var drawn := item.renderable && |item.meshes| > 0;
    Census(
      if drawn then TriangleSum(item.meshes) else 0,
      if drawn then |item.meshes| else 0,
      if item.emission > 0.0 && |item.meshes| > 0 then 1 else 0,
      if item.emission > 0.0 && |item.meshes| == 0 then 1 else 0)
  }

  /** An object and its visible descendants. */
  function TreeCensus(item: SceneItem): Census
    decreases item
  {
    Plus(OwnCensus(item), ForestCensus(item.children))
  }

  function ForestCensus(items: seq<SceneItem>): Census
    decreases items
  {
    if items == [] then NoCensus
    else Plus(if items[0].visible then TreeCensus(items[0]) else NoCensus, ForestCensus(items[1..]))
  }

  /** `r` extends `b` by exactly what `c` counts, and removes nothing. */
  predicate Grows(b: Built, r: Built, c: Census)
  {
    r.created == b.created + c.triangles &&
    |r.triangleList| == |b.triangleList| + c.triangles && b.triangleList <= r.triangleList &&
    |r.transformedMeshes| == |b.transformedMeshes| + c.instances && b.transformedMeshes <= r.transformedMeshes &&
    |r.areaLights| == |b.areaLights| + c.areaLights && b.areaLights <= r.areaLights &&
    |r.pointLights| == |b.pointLights| + c.pointLights && b.pointLights <= r.pointLights &&
    b.meshTriangles.Keys <= r.meshTriangles.Keys &&
    (forall k :: k in b.meshTriangles ==> b.meshTriangles[k] <= r.meshTriangles[k])
  }

  lemma GrowsTrans(b: Built, m: Built, r: Built, c1: Census, c2: Census)
    requires Grows(b, m, c1) && Grows(m, r, c2)
    ensures Grows(b, r, Plus(c1, c2))
  {
  }

  lemma GrowsNothing(b: Built)
    ensures Grows(b, b, NoCensus)
  {
  }

  lemma {:induction false} AddMeshesGrows(b: Built, obj: ObjectKey, meshes: seq<MeshInput>, vm: Matrix)
    ensures Grows(b, AddMeshes(b, obj, meshes, vm).0, Census(TriangleSum(meshes), |meshes|, 0, 0))
  {
    if meshes == [] {
      GrowsNothing(b);
    } else {
      var init := meshes[..|meshes| - 1];
      AddMeshesGrows(b, obj, init, vm);
      var r := AddMeshes(b, obj, init, vm);
      var last := meshes[|meshes| - 1];
      var r' := AddMesh(r.0, obj, last, vm, r.1);
      assert Grows(r.0, r'.0, Census(last.triangleCount, 1, 0, 0));
      GrowsTrans(b, r.0, r'.0, Census(TriangleSum(init), |init|, 0, 0), Census(last.triangleCount, 1, 0, 0));
    }
  }

  lemma ObjectOwnGrows(b: Built, item: SceneItem, vm: Matrix)
    ensures Grows(b, ObjectOwn(b, item, vm), OwnCensus(item))
  {
    var drawn := item.renderable && |item.meshes| > 0;
    var b1 := if drawn then AddMeshes(b, item.key, item.meshes, vm).0 else b;
    var c1 := if drawn then Census(TriangleSum(item.meshes), |item.meshes|, 0, 0) else NoCensus;
    if drawn {
      AddMeshesGrows(b, item.key, item.meshes, vm);
    } else {
      GrowsNothing(b);
    }
    assert Grows(b, b1, c1);
    var c2 := Census(0, 0, if item.emission > 0.0 && |item.meshes| > 0 then 1 else 0, if item.emission > 0.0 && |item.meshes| == 0 then 1 else 0);
    assert Grows(b1, ObjectOwn(b, item, vm), c2);
    GrowsTrans(b, b1, ObjectOwn(b, item, vm), c1, c2);
    assert Plus(c1, c2) == OwnCensus(item);
  }

  /**
   * Transforming an object appends, and never removes: the triangles,
   * instances and lights it adds are exactly those of the object and its
   * visible descendants, counted from the scene alone.
   */
  lemma {:induction false} TransformObjectCensus(b: Built, item: SceneItem, view: Matrix, parent: Matrix)
    ensures Grows(b, TransformObjectSpec(b, item, view, parent), TreeCensus(item))
    decreases item
  {
    var model := ObjectMatrix(parent, item.placement);
    var own := ObjectOwn(b, item, Product(view, model));
    ObjectOwnGrows(b, item, Product(view, model));
    TransformChildrenCensus(own, item.children, view, model);
    GrowsTrans(b, own, TransformChildren(own, item.children, view, model), OwnCensus(item), ForestCensus(item.children));
  }

  lemma {:induction false} TransformChildrenCensus(b: Built, items: seq<SceneItem>, view: Matrix, model: Matrix)
    ensures Grows(b, TransformChildren(b, items, view, model), ForestCensus(items))
    decreases items
  {
    if items == [] {
      GrowsNothing(b);
    } else {
      var b1 := if items[0].visible then TransformObjectSpec(b, items[0], view, model) else b;
      var c1 := if items[0].visible then TreeCensus(items[0]) else NoCensus;
      if items[0].visible {
        TransformObjectCensus(b, items[0], view, model);
      } else {
        GrowsNothing(b);
      }
      TransformChildrenCensus(b1, items[1..], view, model);
      GrowsTrans(b, b1, TransformChildren(b1, items[1..], view, model), c1, ForestCensus(items[1..]));
    }
  }

  /**
   * The invariant the transformation keeps: triangles are numbered in
   * allocation order, below the allocation count; each mesh's list holds
   * only that mesh's triangles; each instance's triangles belong to its
   * mesh and object, carry its transform, end its box's span, and are
   * exactly what its tree holds.
   */
  ghost predicate Consistent(b: Built)
  {
    (forall i :: 0 <= i < |b.triangleList| ==> b.triangleList[i].serial < b.created) &&
    (forall i, j :: 0 <= i < j < |b.triangleList| ==> b.triangleList[i].serial < b.triangleList[j].serial) &&
    (forall k, i :: k in b.meshTriangles && 0 <= i < |b.meshTriangles[k]| ==> b.meshTriangles[k][i].mesh == k) &&
    (forall n :: 0 <= n < |b.transformedMeshes| ==> InstanceConsistent(b.transformedMeshes[n]))
  }

  predicate InstanceConsistent(inst: MeshInstance)
  {
    inst.treeEntries == inst.triangles &&
    |inst.triangles| <= |inst.boxCovers| &&
    inst.triangles == inst.boxCovers[|inst.boxCovers| - |inst.triangles|..] &&
    forall i :: 0 <= i < |inst.triangles| ==>
      inst.triangles[i].mesh == inst.mesh && inst.triangles[i].owner == inst.owner && inst.triangles[i].transform == inst.transform
  }

  lemma AddMeshConsistent(b: Built, obj: ObjectKey, mesh: MeshInput, vm: Matrix, box: seq<TriangleRef>)
    requires Consistent(b)
    ensures Consistent(AddMesh(b, obj, mesh, vm, box).0)
  {
    var r := AddMesh(b, obj, mesh, vm, box).0;
    var own := Fresh(b.created, obj, mesh.key, vm, mesh.triangleCount);
    var inst := r.transformedMeshes[|r.transformedMeshes| - 1];
    assert (box + own)[|box + own| - |own|..] == own;
    assert InstanceConsistent(inst);
    forall i, j | 0 <= i < j < |r.triangleList|
      ensures r.triangleList[i].serial < r.triangleList[j].serial
    {
      if j >= |b.triangleList| {
        assert r.triangleList[j] == own[j - |b.triangleList|];
        if i < |b.triangleList| {
          assert r.triangleList[i] == b.triangleList[i];
        } else {
          assert r.triangleList[i] == own[i - |b.triangleList|];
        }
      }
    }
    forall i | 0 <= i < |r.triangleList|
      ensures r.triangleList[i].serial < r.created
    {
      if i >= |b.triangleList| {
        assert r.triangleList[i] == own[i - |b.triangleList|];
      }
    }
    forall k, i | k in r.meshTriangles && 0 <= i < |r.meshTriangles[k]|
      ensures r.meshTriangles[k][i].mesh == k
    {
      if k == mesh.key {
        var old' := Lookup(b.meshTriangles, k);
        if i >= |old'| {
          assert r.meshTriangles[k][i] == own[i - |old'|];
        }
      }
    }
  }

  lemma {:induction false} AddMeshesConsistent(b: Built, obj: ObjectKey, meshes: seq<MeshInput>, vm: Matrix)
    requires Consistent(b)
    ensures Consistent(AddMeshes(b, obj, meshes, vm).0)
  {
    if meshes != [] {
      var init := meshes[..|meshes| - 1];
      AddMeshesConsistent(b, obj, init, vm);
      var r := AddMeshes(b, obj, init, vm);
      AddMeshConsistent(r.0, obj, meshes[|meshes| - 1], vm, r.1);
    }
  }

  lemma ObjectOwnConsistent(b: Built, item: SceneItem, vm: Matrix)
    requires Consistent(b)
    ensures Consistent(ObjectOwn(b, item, vm))
  {
    if item.renderable && |item.meshes| > 0 {
      AddMeshesConsistent(b, item.key, item.meshes, vm);
    }
  }

  /** The transformation keeps the invariant, whatever the scene. */
  lemma {:induction false} TransformObjectConsistent(b: Built, item: SceneItem, view: Matrix, parent: Matrix)
    requires Consistent(b)
    ensures Consistent(TransformObjectSpec(b, item, view, parent))
    decreases item
  {
    var model := ObjectMatrix(parent, item.placement);
    ObjectOwnConsistent(b, item, Product(view, model));
    TransformChildrenConsistent(ObjectOwn(b, item, Product(view, model)), item.children, view, model);
  }

  lemma {:induction false} TransformChildrenConsistent(b: Built, items: seq<SceneItem>, view: Matrix, model: Matrix)
    requires Consistent(b)
    ensures Consistent(TransformChildren(b, items, view, model))
    decreases items
  {
    if items != [] {
      var b1 := if items[0].visible then TransformObjectSpec(b, items[0], view, model) else b;
      if items[0].visible {
        TransformObjectConsistent(b, items[0], view, model);
      }
      TransformChildrenConsistent(b1, items[1..], view, model);
    }
  }

  /** A cleared renderer, and one whose triangle list was then emptied, are consistent. */
  lemma ClearedConsistent(b: Built)
    requires Consistent(b)
    ensures Consistent(Cleared(b).(triangleList := []))
    ensures Consistent(Cleared(b))
  {
  }

  /**
   * As written, two objects sharing one mesh: the second object's tree also
   * receives the first object's triangles, transformed by the first object's
   * matrix; with the evidently intended step it receives its own only.
   */
  lemma SharedMeshTreeHoldsOtherObject(vmA: Matrix, vmB: Matrix)
    ensures var empty := Built(0, map[], [], [], [], []);
            var mesh := MeshInput(7, 2);
            var afterA := AddMeshAsWritten(empty, 1, mesh, vmA, []).0;
            var inst := AddMeshAsWritten(afterA, 2, mesh, vmB, []).0.transformedMeshes[1];
            |inst.treeEntries| == 4 && inst.treeEntries[0].owner == 1 && inst.treeEntries[0].transform == vmA &&
            !InstanceConsistent(inst)
    ensures var empty := Built(0, map[], [], [], [], []);
            var mesh := MeshInput(7, 2);
            var afterA := AddMesh(empty, 1, mesh, vmA, []).0;
            var inst := AddMesh(afterA, 2, mesh, vmB, []).0.transformedMeshes[1];
            |inst.treeEntries| == 2 && inst.treeEntries[0].owner == 2 && InstanceConsistent(inst)
  {
    var empty := Built(0, map[], [], [], [], []);
    var mesh := MeshInput(7, 2);
    var ownA := Fresh(0, 1, 7, vmA, 2);
    var afterA := AddMeshAsWritten(empty, 1, mesh, vmA, []).0;
    assert afterA.meshTriangles[7] == ownA;
    var ownB := Fresh(2, 2, 7, vmB, 2);
    var inst := AddMeshAsWritten(afterA, 2, mesh, vmB, []).0.transformedMeshes[1];
    assert inst.treeEntries == ownA + ownB;
    assert inst.treeEntries[0] == ownA[0];
    assert inst.treeEntries != inst.triangles;
    var fixedA := AddMesh(empty, 1, mesh, vmA, []).0;
    var fixedInst := AddMesh(fixedA, 2, mesh, vmB, []).0.transformedMeshes[1];
    assert fixedInst.treeEntries == ownB;
    assert ([] + ownB)[0..] == ownB;
  }

  // ---------------------------------------------------------------------
  // The render threads' rows

  /** The pixels of row `y`, left to right, up to column `n`. */
  function RowPixels(y: int, n: nat): seq<(int, int)>
  {
    if n == 0 then [] else RowPixels(y, n - 1) + [(n - 1, y)]
  }

  function Width(w: int): nat { if w > 0 then w else 0 }

  /** The pixels a thread writes from row `y` on, taking every `step`-th row below `height`. */
  function RowsFrom(y: int, step: int, width: int, height: int): seq<(int, int)>
    requires step >= 1
    decreases height - y
  {
    if y >= height then [] else RowPixels(y, Width(width)) + RowsFrom(y + step, step, width, height)
  }

  /** renderThread: thread `threadId` of `threads` starts at row `threadId` and takes every `threads`-th row. */
  function ThreadPixels(threadId: int, threads: int, width: int, height: int): seq<(int, int)>
    requires threads >= 1
  {
    RowsFrom(threadId * PixelBlock, PixelBlock * threads, width, height)
  }

  /** The pixels written by threads 0 to n - 1. */
  function AllThreads(n: nat, threads: int, width: int, height: int): seq<seq<(int, int)>>
    requires threads >= 1
  {
    if n == 0 then [] else AllThreads(n - 1, threads, width, height) + [ThreadPixels(n - 1, threads, width, height)]
  }

  /** renderThread's two loops; the colour of each pixel is not modelled, only which pixels are set. */
  method RenderThread(threadId: int, threads: int, width: int, height: int) returns (written: seq<(int, int)>)
    requires threads >= 1
    ensures written == ThreadPixels(threadId, threads, width, height)
  {
    written := [];
    var y := threadId * PixelBlock;
    while y < height
      invariant written + RowsFrom(y, PixelBlock * threads, width, height) == ThreadPixels(threadId, threads, width, height)
      decreases height - y
    {
      var row := [];
      var x := 0;
      while x < width
        invariant 0 <= x <= Width(width)
        invariant row == RowPixels(y, x)
      {
        row := row + [(x, y)];
        x := x + PixelBlock;
      }
      assert x == Width(width);
      written := written + row;
      y := y + PixelBlock * threads;
    }
  }

  lemma MulStep(n: int, a: int, b: int)
    requires n >= 0 && a < b
    ensures n * a + n <= n * b
  {
    MulLe(n, a + 1, b);
    assert n * (a + 1) == n * a + n;
  }

  lemma MulLe(n: int, a: int, b: int)
    requires n >= 0 && a <= b
    ensures n * a <= n * b
  {
    assert n * b - n * a == n * (b - a);
  }

  lemma DivModUnique(a: int, n: int, q: int, r: int)
    requires n > 0 && a == n * q + r && 0 <= r < n
    ensures a / n == q && a % n == r
  {
    var q', r' := a / n, a % n;
    assert a == n * q' + r';
    if q' < q {
      MulStep(n, q', q);
      assert false;
    } else if q < q' {
      MulStep(n, q, q');
      assert false;
    }
  }

  lemma RowPixelsMembers(y: int, n: nat, p: (int, int))
    ensures p in RowPixels(y, n) <==> p.1 == y && 0 <= p.0 < n
  {
    if n > 0 {
      RowPixelsMembers(y, n - 1, p);
    }
  }

  /** The rows from `y` on are those at a multiple of `step` past it. */
  lemma {:induction false} RowsFromMembers(y: int, step: int, width: int, height: int, p: (int, int))
    requires step >= 1
    ensures p in RowsFrom(y, step, width, height) <==>
            0 <= p.0 < width && y <= p.1 < height && (p.1 - y) % step == 0
    decreases height - y
  {
    if y < height {
      RowPixelsMembers(y, Width(width), p);
      RowsFromMembers(y + step, step, width, height, p);
      var d := p.1 - y;
      if d >= step {
        DivModUnique(d, step, (d - step) / step + 1, (d - step) % step);
      } else if 0 < d {
        DivModUnique(d, step, 0, d);
      }
    }
  }

  /** Thread `t` writes exactly the pixels of the rows congruent to `t` modulo the thread count. */
  lemma ThreadPixelsMembers(t: int, threads: int, width: int, height: int, p: (int, int))
    requires threads >= 1 && 0 <= t < threads
    ensures p in ThreadPixels(t, threads, width, height) <==>
            0 <= p.0 < width && 0 <= p.1 < height && p.1 % threads == t
  {
    RowsFromMembers(t, threads, width, height, p);
    if 0 <= p.1 {
      var q := p.1 / threads;
      DivModUnique(p.1, threads, q, p.1 % threads);
      if p.1 % threads == t {
        DivModUnique(p.1 - t, threads, q, 0);
      } else if t <= p.1 && (p.1 - t) % threads == 0 {
        DivModUnique(p.1, threads, (p.1 - t) / threads, t);
      }
    }
  }

  lemma AllThreadsAt(n: nat, threads: int, width: int, height: int, t: int)
    requires threads >= 1 && 0 <= t < n
    ensures |AllThreads(n, threads, width, height)| == n
    ensures AllThreads(n, threads, width, height)[t] == ThreadPixels(t, threads, width, height)
  {
    if n > 1 {
      AllThreadsAt(n - 1, threads, width, height, if t < n - 1 then t else 0);
    }
  }

  /**
   * The threads share the image without overlap: every pixel of the image is
   * written by exactly one thread, the one its row is congruent to, and no
   * thread writes outside the image.
   */
  lemma EveryPixelOnce(threads: int, width: int, height: int, p: (int, int))
    requires threads >= 1
    ensures var all := AllThreads(threads, threads, width, height);
            |all| == threads &&
            (0 <= p.0 < width && 0 <= p.1 < height ==> p in all[p.1 % threads]) &&
            forall t :: 0 <= t < threads && p in all[t] ==>
              t == p.1 % threads && 0 <= p.0 < width && 0 <= p.1 < height
  {
    var all := AllThreads(threads, threads, width, height);
    AllThreadsAt(threads, threads, width, height, 0);
    if 0 <= p.0 < width && 0 <= p.1 < height {
      AllThreadsAt(threads, threads, width, height, p.1 % threads);
      ThreadPixelsMembers(p.1 % threads, threads, width, height, p);
    }
    forall t | 0 <= t < threads && p in all[t]
      ensures t == p.1 % threads && 0 <= p.0 < width && 0 <= p.1 < height
    {
      AllThreadsAt(threads, threads, width, height, t);
      ThreadPixelsMembers(t, threads, width, height, p);
    }
  }

  // ---------------------------------------------------------------------
  // The renderer

  class RayRenderer {
    var settings: RendererSettings
    var provider: Option<ShaderKind>
    var scene: Option<SceneInput>
    var imageWidth: int
    var imageHeight: int
    /** The pixels each render thread wrote in the last render, by thread. */
    var rendered: seq<seq<(int, int)>>

    var created: nat
    var meshTriangles: map<MeshKey, seq<TriangleRef>>
    var triangleList: seq<TriangleRef>
    var transformedMeshes: seq<MeshInstance>
    var areaLightSources: seq<ObjectKey>
    var pointLightSources: seq<PointLight>

    /** The view matrix and transform stack every renderer has. */
    const base: Renderer

    function BuiltState(): Built
      reads this
    {
      Built(created, meshTriangles, triangleList, transformedMeshes, areaLightSources, pointLightSources)
    }

    /**
     * The settings given, or the defaults; the provider they select; an image
     * of the configured resolution; nothing transformed yet. The random seed
     * and the antialias kernel are not part of this model.
     */
    constructor (given: Option<RendererSettings>, config: BuildConfig)
      ensures settings == (if given.Some? then given.value else DefaultSettings(config))
      ensures provider == ProviderFor(settings.shaderProvider)
      ensures imageWidth == settings.resolutionWidth && imageHeight == settings.resolutionHeight
      ensures scene == None && rendered == []
      ensures BuiltState() == Built(0, map[], [], [], [], [])
      ensures fresh(base) && fresh(base.transformStack)
      ensures base.viewMatrix == Identity && base.transformStack.State() == StackState([], Identity, Identity)
    {
      var s := if given.Some? then given.value else DefaultSettings(config);
      settings := s;
      provider := ProviderFor(s.shaderProvider);
      imageWidth, imageHeight := s.resolutionWidth, s.resolutionHeight;
      scene := None;
      rendered := [];
      created := 0;
      meshTriangles := map[];
      triangleList := [];
      transformedMeshes := [];
      areaLightSources := [];
      pointLightSources := [];
      base := new Renderer();
    }

    /** setRenderSize: the rendering image is recreated at the new size. */
    method SetRenderSize(width: int, height: int)
      modifies this
      ensures imageWidth == width && imageHeight == height
      ensures settings == old(settings) && provider == old(provider) && scene == old(scene)
      ensures rendered == old(rendered) && BuiltState() == old(BuiltState())
    {
      imageWidth, imageHeight := width, height;
    }

    /** setScene. */
    method SetScene(s: Option<SceneInput>)
      modifies this
      ensures scene == s
      ensures settings == old(settings) && provider == old(provider) && imageWidth == old(imageWidth) && imageHeight == old(imageHeight)
      ensures rendered == old(rendered) && BuiltState() == old(BuiltState())
    {
      scene := s;
    }

    /** clearTransformedScene: forget the mesh lists, the instances and the lights. */
    method ClearTransformedScene()
      modifies this
      ensures BuiltState() == Cleared(old(BuiltState()))
      ensures settings == old(settings) && provider == old(provider) && scene == old(scene)
      ensures imageWidth == old(imageWidth) && imageHeight == old(imageHeight) && rendered == old(rendered)
    {
      meshTriangles := map[];
      transformedMeshes := [];
      areaLightSources := [];
      pointLightSources := [];
    }

    /** One mesh of an object: the triangle loop, then the instance and its tree. */
    method AddMeshInstance(obj: ObjectKey, mesh: MeshInput, vm: Matrix, box: seq<TriangleRef>) returns (box': seq<TriangleRef>)
      modifies this
      ensures (BuiltState(), box') == AddMesh(old(BuiltState()), obj, mesh, vm, box)
      ensures settings == old(settings) && provider == old(provider) && scene == old(scene)
      ensures imageWidth == old(imageWidth) && imageHeight == old(imageHeight) && rendered == old(rendered)
    {
      ghost var start := BuiltState();
      if mesh.key !in meshTriangles {
        meshTriangles := meshTriangles[mesh.key := []];
      }
      var own := [];
      assert Lookup(start.meshTriangles, mesh.key) + own == meshTriangles[mesh.key];
      assert meshTriangles == start.meshTriangles[mesh.key := Lookup(start.meshTriangles, mesh.key) + own];
      box' := box;
      var k := 0;
      while k < mesh.triangleCount
        invariant 0 <= k <= mesh.triangleCount
        invariant created == start.created + k
        invariant own == Fresh(start.created, obj, mesh.key, vm, k)
        invariant meshTriangles == start.meshTriangles[mesh.key := Lookup(start.meshTriangles, mesh.key) + own]
        invariant triangleList == start.triangleList + own
        invariant box' == box + own
        invariant transformedMeshes == start.transformedMeshes
        invariant areaLightSources == start.areaLights && pointLightSources == start.pointLights
        invariant settings == old(settings) && provider == old(provider) && scene == old(scene)
        invariant imageWidth == old(imageWidth) && imageHeight == old(imageHeight) && rendered == old(rendered)
      {
        var rt := TriangleRef(created, obj, mesh.key, k, vm);
        created := created + 1;
        assert Lookup(start.meshTriangles, mesh.key) + (own + [rt]) == meshTriangles[mesh.key] + [rt];
        meshTriangles := meshTriangles[mesh.key := meshTriangles[mesh.key] + [rt]];
        triangleList := triangleList + [rt];
        own := own + [rt];
        box' := box' + [rt];
        k := k + 1;
      }
      // Every triangle of the instance is put into its tree; SpaceTrees models where it lands.
      var split := TreeLevel(|own|) > 0;
      transformedMeshes := transformedMeshes + [MeshInstance(mesh.key, obj, vm, own, box', split, own)];
    }

    /** The object's own part of transformObject: its meshes, then its light. */
    method AddObjectOwn(item: SceneItem, vm: Matrix)
      modifies this
      ensures BuiltState() == ObjectOwn(old(BuiltState()), item, vm)
      ensures settings == old(settings) && provider == old(provider) && scene == old(scene)
      ensures imageWidth == old(imageWidth) && imageHeight == old(imageHeight) && rendered == old(rendered)
    {
      if item.renderable && |item.meshes| > 0 {
        var box := [];
        var i := 0;
        while i < |item.meshes|
          invariant 0 <= i <= |item.meshes|
          invariant (BuiltState(), box) == AddMeshes(old(BuiltState()), item.key, item.meshes[..i], vm)
          invariant settings == old(settings) && provider == old(provider) && scene == old(scene)
          invariant imageWidth == old(imageWidth) && imageHeight == old(imageHeight) && rendered == old(rendered)
        {
          assert item.meshes[..i + 1][..i] == item.meshes[..i];
          box := AddMeshInstance(item.key, item.meshes[i], vm, box);
          i := i + 1;
        }
        assert item.meshes[..|item.meshes|] == item.meshes;
      }
      if item.emission > 0.0 {
        if |item.meshes| > 0 {
          areaLightSources := areaLightSources + [item.key];
        } else {
          pointLightSources := pointLightSources + [PointLight(item.key, vm, InverseTranspose(vm), item.placement.angle)];
        }
      }
    }

    /**
     * transformObject: push the object's placement, add the object under the
     * view-model matrix, recurse into its visible children, pop. The stack
     * and the model matrix are as they were; the normal matrix is the last
     * one pushed.
     */
    method TransformObject(item: SceneItem)
      modifies this, base.transformStack
      ensures BuiltState() == TransformObjectSpec(old(BuiltState()), item, base.viewMatrix, old(base.transformStack.modelMatrix))
      ensures base.transformStack.modelMatrixStack == old(base.transformStack.modelMatrixStack)
      ensures base.transformStack.modelMatrix == old(base.transformStack.modelMatrix)
      ensures settings == old(settings) && provider == old(provider) && scene == old(scene)
      ensures imageWidth == old(imageWidth) && imageHeight == old(imageHeight) && rendered == old(rendered)
      decreases item
    {
      var stack := base.transformStack;
      stack.PushObject(item.placement);
      var model := stack.modelMatrix;
      var viewModel := Product(base.viewMatrix, model);
      AddObjectOwn(item, viewModel);
      ghost var own := BuiltState();
      var j := 0;
      while j < |item.children|
        invariant 0 <= j <= |item.children|
        invariant TransformChildren(BuiltState(), item.children[j..], base.viewMatrix, model)
                  == TransformChildren(own, item.children, base.viewMatrix, model)
        invariant stack.modelMatrixStack == old(stack.modelMatrixStack) + [old(stack.modelMatrix)]
        invariant stack.modelMatrix == model
        invariant settings == old(settings) && provider == old(provider) && scene == old(scene)
        invariant imageWidth == old(imageWidth) && imageHeight == old(imageHeight) && rendered == old(rendered)
      {
        var child := item.children[j];
        assert item.children[j..][1..] == item.children[j + 1..];
        if child.visible {
          TransformObject(child);
        }
        j := j + 1;
      }
      stack.PopObject();
    }

    /** transformScene: nothing without a scene; otherwise empty the triangle list and transform the visible objects. */
    method TransformScene()
      modifies this, base.transformStack
      ensures scene.None? ==> BuiltState() == old(BuiltState())
      ensures scene.Some? ==> BuiltState() == TransformChildren(old(BuiltState()).(triangleList := []), scene.value.objects,
                                                                base.viewMatrix, old(base.transformStack.modelMatrix))
      ensures base.transformStack.modelMatrixStack == old(base.transformStack.modelMatrixStack)
      ensures base.transformStack.modelMatrix == old(base.transformStack.modelMatrix)
      ensures settings == old(settings) && provider == old(provider) && scene == old(scene)
      ensures imageWidth == old(imageWidth) && imageHeight == old(imageHeight) && rendered == old(rendered)
    {
      if scene.None? {
        return;
      }
      var objects := scene.value.objects;
      triangleList := [];
      ghost var start := BuiltState();
      var model := base.transformStack.modelMatrix;
      var i := 0;
      while i < |objects|
        invariant 0 <= i <= |objects|
        invariant TransformChildren(BuiltState(), objects[i..], base.viewMatrix, model)
                  == TransformChildren(start, objects, base.viewMatrix, model)
        invariant base.transformStack.modelMatrixStack == old(base.transformStack.modelMatrixStack)
        invariant base.transformStack.modelMatrix == model
        invariant settings == old(settings) && provider == old(provider) && scene == old(scene)
        invariant imageWidth == old(imageWidth) && imageHeight == old(imageHeight) && rendered == old(rendered)
      {
        assert objects[i..][1..] == objects[i + 1..];
        if objects[i].visible {
          TransformObject(objects[i]);
        }
        i := i + 1;
      }
    }

    /** The thread loop of render: each thread's pixels, collected in thread order. */
    method RenderThreads()
      requires settings.threads >= 1
      modifies this
      ensures settings == old(settings) && provider == old(provider) && scene == old(scene)
      ensures rendered == AllThreads(settings.threads, settings.threads, imageWidth, imageHeight)
      ensures imageWidth == old(imageWidth) && imageHeight == old(imageHeight) && BuiltState() == old(BuiltState())
    {
      var threads := settings.threads;
      var all := [];
      var i := 0;
      while i < threads
        invariant 0 <= i <= threads
        invariant all == AllThreads(i, threads, imageWidth, imageHeight)
        modifies {}
      {
        var written := RenderThread(i, threads, imageWidth, imageHeight);
        all := all + [written];
        i := i + 1;
      }
      rendered := all;
    }

    /**
     * render: nothing without a shader provider; otherwise reset the
     * transforms, and stop there without a scene or a main camera.
     * Otherwise apply the camera to the view, rebuild the transformed scene
     * from scratch and let every thread write its rows.
     */
    method Render()
      modifies this, base, base.transformStack
      ensures settings == old(settings) && provider == old(provider) && scene == old(scene)
      ensures imageWidth == old(imageWidth) && imageHeight == old(imageHeight)
      ensures provider.None? ==> BuiltState() == old(BuiltState()) && rendered == old(rendered) &&
                                 base.viewMatrix == old(base.viewMatrix) &&
                                 base.transformStack.State() == old(base.transformStack.State())
      ensures provider.Some? ==> base.transformStack.modelMatrixStack == [] && base.transformStack.modelMatrix == Identity
      ensures provider.Some? && (scene.None? || scene.value.mainCamera.None?) ==>
                base.viewMatrix == Identity && BuiltState() == old(BuiltState()) && rendered == old(rendered)
      ensures provider.Some? && scene.Some? && scene.value.mainCamera.Some? ==>
                base.viewMatrix == CameraView(Identity, scene.value.mainCamera.value) &&
                BuiltState() == TransformChildren(Cleared(old(BuiltState())).(triangleList := []), scene.value.objects,
                                                  base.viewMatrix, Identity) &&
                rendered == (if settings.threads >= 1 then AllThreads(settings.threads, settings.threads, imageWidth, imageHeight) else [])
    {
      if provider.None? {
        return;
      }
      base.ResetTransformMatrices();
      if scene.None? || scene.value.mainCamera.None? {
        return;
      }
      base.ApplyCameraTransform(scene.value.mainCamera.value);
      ClearTransformedScene();
      TransformScene();
      if settings.threads >= 1 {
        RenderThreads();
      } else {
        rendered := [];
      }
    }
  }
}
