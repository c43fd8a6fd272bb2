// The scene graph: objects owning child objects and meshes, the scene holding
// the top-level objects, and the resource pool caching what scenes share.
// Searches and visits over a tree of objects are specified over a snapshot of
// the tree (`Node`), which `Mirrors` ties to the objects in the heap.
module SceneGraph {
  import opened Base
  import opened Meshes
  import opened Materials
  import opened Names

  /** The fields a `Camera` adds to a scene object. */
  datatype CameraSettings = CameraSettings(
    fieldOfView: real, viewNear: real, viewFar: real, depthOfField: real, aperture: real, focusOnObjectName: string)

  const DefaultCamera: CameraSettings := CameraSettings(75.0, 0.1, 50.0, 0.0, 1.8, "")

  /** Every field of a scene object, for stating what an operation changes and what it keeps. */
  datatype ObjectState = ObjectState(
    name: string, parent: SceneObject?, location: Vec3, angle: Vec3, scale: Vec3, material: Material,
    visible: bool, renderable: bool, isRootObject: bool, generateLightmap: bool,
    meshes: seq<Mesh>, objects: seq<SceneObject>, camera: Option<CameraSettings>)

  class SceneObject {
    var name: string
    var parent: SceneObject?
    var location: Vec3
    var angle: Vec3
    var scale: Vec3
    var material: Material
    var visible: bool
    var renderable: bool
    var isRootObject: bool
    var generateLightmap: bool
    var meshes: seq<Mesh>
    var objects: seq<SceneObject>
    /** The camera settings when the object is a `Camera`. */
    var camera: Option<CameraSettings>

    /** `SceneObject(name)`: at the origin, unrotated, unit scale, visible and renderable, no parent. */
    constructor (name: string)
      ensures this.name == name && parent == null
      ensures location == Vec3(0.0, 0.0, 0.0) && angle == Vec3(0.0, 0.0, 0.0) && scale == Vec3(1.0, 1.0, 1.0)
      ensures material == DefaultMaterial && visible && renderable && !isRootObject && !generateLightmap
      ensures meshes == [] && objects == [] && camera == None
    {
      this.name := name;
      parent := null;
      location, angle, scale := Vec3(0.0, 0.0, 0.0), Vec3(0.0, 0.0, 0.0), Vec3(1.0, 1.0, 1.0);
      material := DefaultMaterial;
      visible, renderable, isRootObject, generateLightmap := true, true, false, false;
      meshes, objects := [], [];
      camera := None;
    }

    /** `Camera()`: an unnamed object with the default camera settings, invisible. */
    constructor Camera()
      ensures name == "" && parent == null && camera == Some(DefaultCamera) && !visible && renderable
      ensures !isRootObject && !generateLightmap
      ensures location == Vec3(0.0, 0.0, 0.0) && angle == Vec3(0.0, 0.0, 0.0) && scale == Vec3(1.0, 1.0, 1.0)
      ensures material == DefaultMaterial && meshes == [] && objects == []
    {
      name := "";
      parent := null;
      location, angle, scale := Vec3(0.0, 0.0, 0.0), Vec3(0.0, 0.0, 0.0), Vec3(1.0, 1.0, 1.0);
      material := DefaultMaterial;
      visible, renderable, isRootObject, generateLightmap := false, true, false, false;
      meshes, objects := [], [];
      camera := Some(DefaultCamera);
    }

    function GetParent(): (p: SceneObject?)
      reads this
    {
      parent
    }

    method SetParent(p: SceneObject?)
      modifies this
      ensures GetParent() == p && State() == old(State()).(parent := p)
    {
      parent := p;
    }

    /** Every field. */
    function State(): ObjectState
      reads this
    {
      ObjectState(name, parent, location, angle, scale, material, visible, renderable, isRootObject, generateLightmap,
        meshes, objects, camera)
    }

    /** Every field but the children. */
    function Own(): (string, Material, seq<Mesh>, Option<CameraSettings>, SceneObject?, Vec3, Vec3, Vec3, bool, bool, bool, bool)
      reads this
    {
      (name, material, meshes, camera, parent, location, angle, scale, visible, renderable, isRootObject, generateLightmap)
    }

    /** `addMesh`: the mesh is appended, and nothing else changes. */
    method AddMesh(mesh: Mesh)
      modifies this
      ensures State() == old(State()).(meshes := old(meshes) + [mesh])
    {
      meshes := meshes + [mesh];
    }

    /** `removeMesh`: the first occurrence of the mesh goes, if there is one, and nothing else changes. */
    method RemoveMesh(mesh: Mesh)
      modifies this
      ensures State() == old(State()).(meshes := RemoveFirst(old(meshes), mesh))
    {
      meshes := RemoveFirst(meshes, mesh);
    }

    method RemoveAllMeshes()
      modifies this
      ensures State() == old(State()).(meshes := [])
    {
      meshes := [];
    }

    /** `addObject`: the object becomes the last child, with this object as its parent; nothing else changes. */
    method AddObject(obj: SceneObject)
      modifies this, obj
      ensures objects == old(objects) + [obj] && obj.parent == this
      ensures obj != this ==> Own() == old(Own())
      ensures obj != this ==>
        State() == old(State()).(objects := old(objects) + [obj]) && obj.State() == old(obj.State()).(parent := this)
      ensures obj == this ==> State() == old(State()).(objects := old(objects) + [obj], parent := this)
    {
      obj.parent := this;
      objects := objects + [obj];
    }

    /**
     * `removeObject`: the first occurrence of the object goes, if there is
     * one; its parent is cleared regardless; nothing else changes.
     */
    method RemoveObject(obj: SceneObject)
      modifies this, obj
      ensures objects == RemoveFirst(old(objects), obj) && obj.parent == null
      ensures obj != this ==>
        State() == old(State()).(objects := RemoveFirst(old(objects), obj)) && obj.State() == old(obj.State()).(parent := null)
      ensures obj == this ==> State() == old(State()).(objects := RemoveFirst(old(objects), obj), parent := null)
    {
      objects := RemoveFirst(objects, obj);
      obj.SetParent(null);
    }

    /** The names of the direct children. */
    function ChildNames(): (r: set<string>)
      reads this, objects
      ensures forall i :: 0 <= i < |objects| ==> objects[i].name in r
    {
      set i | 0 <= i < |objects| :: objects[i].name
    }

    /** `sameNameObjectAlreadyExist`: a direct child has the name (grandchildren are not looked at). */
    method SameNameObjectAlreadyExist(name: string) returns (b: bool)
      ensures b <==> name in ChildNames()
    {
      for i := 0 to |objects|
        invariant forall k :: 0 <= k < i ==> objects[k].name != name
      {
        if objects[i].name == name {
          return true;
        }
      }
      return false;
    }

    /**
     * `makeUniqueChildName`: the name unchanged when no direct child has it,
     * else the name with `_k` appended for the first `k` from 2 that no
     * direct child has.
     */
    method MakeUniqueChildName(name: string) returns (r: string)
      ensures UniqueNameOf(ChildNames(), name, r)
    {
      var taken := SameNameObjectAlreadyExist(name);
      if !taken {
        return name;
      }
      var index := 2;
      while true
        invariant index >= 2 && forall i :: 2 <= i < index ==> Suffixed(name, i) in ChildNames()
        decreases TakenFrom(ChildNames(), name, index)
      {
        var objName := Suffixed(name, index);
        var exists_ := SameNameObjectAlreadyExist(objName);
        if !exists_ {
          assert FirstFree(ChildNames(), name, index);
          return objName;
        }
        TakenFromShrinks(ChildNames(), name, index);
        index := index + 1;
      }
    }

    /**
     * `clone`: a new plain object with this one's name, material and meshes
     * (the same meshes, shared), and a clone of each child added in order, so
     * that every parent link in the copy points into the copy. The transform,
     * the flags and the camera settings are not copied: the clone has those
     * of a new object, so it is visible and renderable whatever this one is.
     */
    method Clone(ghost t: Node) returns (c: SceneObject, ghost ct: Node)
      requires t.obj == this && Agrees(t) && Mirrors(objects, t.kids)
      ensures fresh(c) && (forall o :: o in Footprint(ct.kids) ==> fresh(o)) && c !in Footprint(ct.kids)
      ensures ct.obj == c && Agrees(ct) && Mirrors(c.objects, ct.kids) && c.parent == null && Linked(c, ct.kids)
      ensures ct.name == t.name && ct.material == t.material && ct.meshes == t.meshes && !ct.isCamera
      ensures Copied(t.kids, ct.kids)
      ensures c.location == Vec3(0.0, 0.0, 0.0) && c.angle == Vec3(0.0, 0.0, 0.0) && c.scale == Vec3(1.0, 1.0, 1.0)
      ensures c.visible && c.renderable && !c.isRootObject && !c.generateLightmap
      decreases t, 0
    {
      MirroredAllocated(objects, t.kids);
      c := new SceneObject("");
      c.name := name;
      c.material := material;
      for i := 0 to |meshes|
        invariant c.meshes == meshes[..i] && c.objects == [] && c.name == name && c.material == material
        invariant fresh(c) && c.camera == None && c.parent == null
        invariant c.location == Vec3(0.0, 0.0, 0.0) && c.angle == Vec3(0.0, 0.0, 0.0) && c.scale == Vec3(1.0, 1.0, 1.0)
        invariant c.visible && c.renderable && !c.isRootObject && !c.generateLightmap
      {
        c.AddMesh(meshes[i]);
      }
      ghost var kids := CloneChildren(c, objects, t.kids);
      ct := Node(c, name, material, meshes, false, kids);
    }

    /** `findObjectByName`: the first object with the name in depth-first preorder below this one. */
    method FindObjectByName(ghost t: Node, name: string) returns (r: SceneObject?)
      requires t.obj == this && Mirrors(objects, t.kids)
      ensures r == ObjectOf(FindIn(t.kids, name))
    {
      r := FindInForest(objects, t.kids, name);
    }
  }

  /** `seq` without the first occurrence of `x`, as `erase(find(...))` leaves it. */
  function RemoveFirst<T(==)>(s: seq<T>, x: T): (r: seq<T>)
    ensures x !in s ==> r == s
    ensures x in s ==> |r| == |s| - 1
  {
    if s == [] then []
    else if s[0] == x then s[1..] else [s[0]] + RemoveFirst(s[1..], x)
  }

  /** Exactly one occurrence of `x` goes, and nothing else. */
  lemma {:induction false} RemoveFirstRemovesOne<T>(s: seq<T>, x: T)
    requires x in s
    ensures multiset(RemoveFirst(s, x)) == multiset(s) - multiset{x}
  {
    assert s == [s[0]] + s[1..];
    if s[0] != x {
      RemoveFirstRemovesOne(s[1..], x);
    }
  }

  /** The first occurrence goes: what comes before it stays in order, and so does what comes after. */
  lemma {:induction false} RemoveFirstSplits<T>(s: seq<T>, x: T, i: nat)
    requires i < |s| && s[i] == x && x !in s[..i]
    ensures RemoveFirst(s, x) == s[..i] + s[i + 1..]
  {
    if i > 0 {
      assert s[1..][..i - 1] == s[1..i];
      assert x !in s[1..][..i - 1];
      RemoveFirstSplits(s[1..], x, i - 1);
      assert s[1..][i..] == s[i + 1..];
      assert s[..i] == [s[0]] + s[1..i];
    }
  }

  /** A snapshot of an object and its subtree: the object, the fields the searches read, and the children. */
  datatype Node = Node(obj: SceneObject, name: string, material: Material, meshes: seq<Mesh>, isCamera: bool, kids: seq<Node>)

  /** Every object of a forest of snapshots. */
  ghost function Footprint(ts: seq<Node>): set<SceneObject>
    decreases ts
  {
    if ts == [] then {} else {ts[0].obj} + Footprint(ts[0].kids) + Footprint(ts[1..])
  }

  /** The object's fields agree with its snapshot. */
  ghost predicate Agrees(n: Node)
    reads n.obj
  {
    n.obj.name == n.name && n.obj.material == n.material && n.obj.meshes == n.meshes && n.obj.camera.Some? == n.isCamera
  }

  /** The objects `objs` and their subtrees are described by the forest `ts`. */
  ghost predicate Mirrors(objs: seq<SceneObject>, ts: seq<Node>)
    reads Footprint(ts)
    decreases ts
  {
    |objs| == |ts|
    && (ts != [] ==>
          objs[0] == ts[0].obj && Agrees(ts[0]) && Mirrors(ts[0].obj.objects, ts[0].kids) && Mirrors(objs[1..], ts[1..]))
  }

  /** The objects a snapshot describes are all allocated, being reachable from allocated objects. */
  lemma {:induction false} MirroredAllocated(objs: seq<SceneObject>, ts: seq<Node>)
    requires Mirrors(objs, ts) && forall i :: 0 <= i < |objs| ==> allocated(objs[i])
    ensures forall o :: o in Footprint(ts) ==> allocated(o)
    decreases ts
  {
    if ts != [] {
      MirroredAllocated(ts[0].obj.objects, ts[0].kids);
      MirroredAllocated(objs[1..], ts[1..]);
    }
  }

  /** The `k`th object of a mirrored forest agrees with the `k`th snapshot, down its subtree. */
  lemma {:induction false} MirrorsAt(objs: seq<SceneObject>, ts: seq<Node>, k: nat)
    requires Mirrors(objs, ts) && k < |ts|
    ensures objs[k] == ts[k].obj && Agrees(ts[k]) && Mirrors(objs[k].objects, ts[k].kids)
    ensures {ts[k].obj} + Footprint(ts[k].kids) <= Footprint(ts)
    decreases k
  {
    if k > 0 {
      MirrorsAt(objs[1..], ts[1..], k - 1);
    }
  }

  /** Every object of the forest has `parent` as its parent, and so on down. */
  ghost predicate Linked(parent: SceneObject?, ts: seq<Node>)
    reads Footprint(ts)
    decreases ts
  {
    ts != [] ==> ts[0].obj.parent == parent && Linked(ts[0].obj, ts[0].kids) && Linked(parent, ts[1..])
  }

  /** `cs` is a copy of `ts`: the same names, materials and meshes, and plain objects throughout. */
  ghost predicate Copied(ts: seq<Node>, cs: seq<Node>)
    decreases ts
  {
    |ts| == |cs|
    && forall i :: 0 <= i < |ts| ==>
         cs[i].name == ts[i].name && cs[i].material == ts[i].material && cs[i].meshes == ts[i].meshes
         && !cs[i].isCamera && Copied(ts[i].kids, cs[i].kids)
  }

  lemma CopiedAppend(ts: seq<Node>, cs: seq<Node>, t: Node, c: Node)
    requires Copied(ts, cs) && Copied(t.kids, c.kids)
    requires c.name == t.name && c.material == t.material && c.meshes == t.meshes && !c.isCamera
    ensures Copied(ts + [t], cs + [c])
  {
    assert forall i :: 0 <= i < |ts| ==> (ts + [t])[i] == ts[i] && (cs + [c])[i] == cs[i];
  }

  function ObjectsOf(ts: seq<Node>): (r: seq<SceneObject>)
    ensures |r| == |ts| && forall i :: 0 <= i < |ts| ==> r[i] == ts[i].obj
  {
    seq(|ts|, i requires 0 <= i < |ts| => ts[i].obj)
  }

  lemma FootprintAppend(ts: seq<Node>, t: Node)
    ensures Footprint(ts + [t]) == Footprint(ts) + {t.obj} + Footprint(t.kids)
    decreases ts
  {
    if ts == [] {
      assert [t][1..] == [];
    } else {
      assert (ts + [t])[1..] == ts[1..] + [t];
      FootprintAppend(ts[1..], t);
    }
  }

  /** The loop of `clone` over the children: each child's clone is added to `c`, in order. */
  method CloneChildren(c: SceneObject, objs: seq<SceneObject>, ghost ts: seq<Node>) returns (ghost kids: seq<Node>)
    requires Mirrors(objs, ts) && c.objects == [] && c !in Footprint(ts)
    modifies c
    ensures c.objects == ObjectsOf(kids) && Mirrors(ObjectsOf(kids), kids) && Linked(c, kids) && Copied(ts, kids)
    ensures (forall o :: o in Footprint(kids) ==> fresh(o)) && c !in Footprint(kids) && c.Own() == old(c.Own())
    decreases ts
  {
    kids := [];
    for k := 0 to |objs|
      invariant |kids| == k && c.objects == ObjectsOf(kids) && c.Own() == old(c.Own())
      invariant (forall o :: o in Footprint(kids) ==> fresh(o)) && c !in Footprint(kids)
      invariant Mirrors(ObjectsOf(kids), kids) && Linked(c, kids) && Copied(ts[..k], kids)
      invariant Mirrors(objs, ts)
    {
      MirroredAllocated(objs, ts);
      MirrorsAt(objs, ts, k);
      kids := CloneStep(c, ts, k, kids, objs[k]);
    }
    assert ts[..|objs|] == ts;
  }

  /** One step of the loop: the `k`th child is cloned, and the clone added to `c` after the clones before it. */
  method CloneStep(c: SceneObject, ghost ts: seq<Node>, k: nat, ghost kids: seq<Node>, obj: SceneObject)
    returns (ghost kids': seq<Node>)
    requires k < |ts| && ts[k].obj == obj && Agrees(ts[k]) && Mirrors(obj.objects, ts[k].kids)
    requires |kids| == k && c.objects == ObjectsOf(kids) && c !in Footprint(kids)
    requires Mirrors(ObjectsOf(kids), kids) && Linked(c, kids) && Copied(ts[..k], kids)
    modifies c
    ensures |kids'| == k + 1 && c.objects == ObjectsOf(kids') && c !in Footprint(kids')
    ensures Mirrors(ObjectsOf(kids'), kids') && Linked(c, kids') && Copied(ts[..k + 1], kids')
    ensures (forall o :: o in Footprint(kids') ==> o in Footprint(kids) || fresh(o)) && c.Own() == old(c.Own())
    decreases ts, 2
  {
    var cct := CloneInto(c, kids, obj, ts[k]);
    assert ts[..k + 1] == ts[..k] + [ts[k]];
    CopiedAppend(ts[..k], kids, ts[k], cct);
    kids' := kids + [cct];
  }

  /** One step of the loop: the child `obj` is cloned, and the clone added to `c`. */
  method CloneInto(c: SceneObject, ghost kids: seq<Node>, obj: SceneObject, ghost t: Node) returns (ghost cct: Node)
    requires t.obj == obj && Agrees(t) && Mirrors(obj.objects, t.kids)
    requires c.objects == ObjectsOf(kids) && Mirrors(ObjectsOf(kids), kids) && Linked(c, kids) && c !in Footprint(kids)
    modifies c
    ensures c.objects == ObjectsOf(kids + [cct]) && Mirrors(ObjectsOf(kids + [cct]), kids + [cct]) && Linked(c, kids + [cct])
    ensures Footprint(kids + [cct]) == Footprint(kids) + ({cct.obj} + Footprint(cct.kids))
    ensures (forall o :: o in {cct.obj} + Footprint(cct.kids) ==> fresh(o)) && c !in Footprint(kids + [cct]) && c.Own() == old(c.Own())
    ensures cct.name == t.name && cct.material == t.material && cct.meshes == t.meshes && !cct.isCamera
    ensures Copied(t.kids, cct.kids)
    decreases t, 1
  {
    MirroredAllocated(c.objects, kids);
    var cc;
    cc, cct := obj.Clone(t);
    Adopt(c, kids, cc, cct);
  }

  /** `addObject` of a new clone after the clones before it: both stay described, and both are linked to `c`. */
  method Adopt(c: SceneObject, ghost kids: seq<Node>, cc: SceneObject, ghost cct: Node)
    requires c.objects == ObjectsOf(kids) && Mirrors(ObjectsOf(kids), kids) && Linked(c, kids)
    requires cct.obj == cc && Agrees(cct) && Mirrors(cc.objects, cct.kids) && cc.parent == null && Linked(cc, cct.kids)
    requires c != cc && c !in Footprint(kids) && c !in Footprint(cct.kids) && cc !in Footprint(cct.kids)
    requires cc !in Footprint(kids) && Footprint(kids) !! Footprint(cct.kids)
    modifies c, cc
    ensures c.objects == ObjectsOf(kids + [cct]) && Mirrors(ObjectsOf(kids + [cct]), kids + [cct]) && Linked(c, kids + [cct])
    ensures Footprint(kids + [cct]) == Footprint(kids) + {cc} + Footprint(cct.kids) && c.Own() == old(c.Own())
    ensures cc.State() == old(cc.State()).(parent := c)
  {
    MirroredAllocated(c.objects, kids);
    MirroredAllocated(cc.objects, cct.kids);
    ghost var grandchildren := cc.objects;
    FootprintAppend(kids, cct);
    c.AddObject(cc);
    MirrorsAppend(kids, cct);
    LinkedAppend(c, kids, cct);
  }

  lemma {:induction false} MirrorsAppend(ts: seq<Node>, t: Node)
    requires Mirrors(ObjectsOf(ts), ts) && Agrees(t) && Mirrors(t.obj.objects, t.kids)
    ensures Mirrors(ObjectsOf(ts + [t]), ts + [t])
    decreases ts
  {
    if ts == [] {
      assert ts + [t] == [t] && ObjectsOf([t])[1..] == [];
    } else {
      assert (ts + [t])[1..] == ts[1..] + [t];
      assert ObjectsOf(ts)[1..] == ObjectsOf(ts[1..]);
      assert ObjectsOf(ts + [t])[1..] == ObjectsOf(ts[1..] + [t]);
      MirrorsAppend(ts[1..], t);
    }
  }

  lemma {:induction false} LinkedAppend(p: SceneObject?, ts: seq<Node>, t: Node)
    requires Linked(p, ts) && t.obj.parent == p && Linked(t.obj, t.kids)
    ensures Linked(p, ts + [t])
    decreases ts
  {
    if ts == [] {
      assert ts + [t] == [t] && [t][1..] == [];
    } else {
      assert (ts + [t])[1..] == ts[1..] + [t];
      LinkedAppend(p, ts[1..], t);
    }
  }

  function ObjectOf(n: Option<Node>): (r: SceneObject?)
    ensures (r == null) == n.None?
  {
    if n.Some? then n.value.obj else null
  }

  /** The first node named `name` in depth-first preorder: each node, then its subtree, then its next sibling. */
  function FindIn(ts: seq<Node>, name: string): Option<Node>
    decreases ts
  {
    if ts == [] then None
    else if ts[0].name == name then Some(ts[0])
    else match FindIn(ts[0].kids, name)
      case Some(n) => Some(n)
      case None => FindIn(ts[1..], name)
  }

  /** The nodes of a forest in depth-first preorder. */
  function Preorder(ts: seq<Node>): seq<Node>
    decreases ts
  {
    if ts == [] then [] else [ts[0]] + Preorder(ts[0].kids) + Preorder(ts[1..])
  }

  /** The first node with the name in a list of nodes. */
  function FirstNamed(ns: seq<Node>, name: string): (r: Option<Node>)
    ensures r.Some? ==> r.value in ns && r.value.name == name
    ensures r.None? ==> forall i :: 0 <= i < |ns| ==> ns[i].name != name
  {
    if ns == [] then None else if ns[0].name == name then Some(ns[0]) else FirstNamed(ns[1..], name)
  }

  lemma {:induction false} FirstNamedAppend(a: seq<Node>, b: seq<Node>, name: string)
    ensures FirstNamed(a + b, name) == if FirstNamed(a, name).Some? then FirstNamed(a, name) else FirstNamed(b, name)
  {
    if a != [] {
      assert (a + b)[1..] == a[1..] + b;
      FirstNamedAppend(a[1..], b, name);
    } else {
      assert a + b == b;
    }
  }

  /** The search is the first match of the preorder listing: a node, then its subtree, before its next sibling. */
  lemma {:induction false} FindInIsFirstInPreorder(ts: seq<Node>, name: string)
    ensures FindIn(ts, name) == FirstNamed(Preorder(ts), name)
    decreases ts
  {
    if ts != [] {
      FindInIsFirstInPreorder(ts[0].kids, name);
      FindInIsFirstInPreorder(ts[1..], name);
      FirstNamedAppend([ts[0]] + Preorder(ts[0].kids), Preorder(ts[1..]), name);
      FirstNamedAppend([ts[0]], Preorder(ts[0].kids), name);
    }
  }

  /** The loop of `findObjectByName` over a list of objects, recursing into each before moving to the next. */
  method FindInForest(objs: seq<SceneObject>, ghost ts: seq<Node>, name: string) returns (r: SceneObject?)
    requires Mirrors(objs, ts)
    ensures r == ObjectOf(FindIn(ts, name))
    decreases ts
  {
    assert objs[0..] == objs && ts[0..] == ts;
    var i := 0;
    while i < |objs|
      invariant 0 <= i <= |objs|
      invariant FindIn(ts, name) == FindIn(ts[i..], name)
      invariant Mirrors(objs[i..], ts[i..])
    {
      assert ts[i..][0] == ts[i] && ts[i..][1..] == ts[i + 1..];
      assert objs[i..][0] == objs[i] && objs[i..][1..] == objs[i + 1..];
      MirroredAllocated(objs[i + 1..], ts[i + 1..]);
      if objs[i].name == name {
        return objs[i];
      }
      var child := FindInForest(objs[i].objects, ts[i].kids, name);
      if child != null {
        return child;
      }
      i := i + 1;
    }
    assert ts[i..] == [];
    return null;
  }

  // ---- eachChild ----

  /**
   * The iterator calls of `eachChild` over the children `ts`, and whether the
   * visit ran to the end: first every child in order, then the visit of each
   * child's subtree in order; the first call answering false ends it all.
   */
  function Visit(ts: seq<Node>, f: Node -> bool): (seq<Node>, bool)
    decreases ts, 1
  {
    var (a, ok) := CallEach(ts, f);
    if !ok then (a, false)
    else
      var (b, ok2) := Descend(ts, f);
      (a + b, ok2)
  }

  /** The first loop: the iterator on each child until one answers false. */
  function CallEach(ts: seq<Node>, f: Node -> bool): (seq<Node>, bool)
  {
    if ts == [] then ([], true)
    else if !f(ts[0]) then ([ts[0]], false)
    else
      var (rest, ok) := CallEach(ts[1..], f);
      ([ts[0]] + rest, ok)
  }

  /** The second loop: the visit of each child's subtree until one stops. */
  function Descend(ts: seq<Node>, f: Node -> bool): (seq<Node>, bool)
    decreases ts, 0
  {
    if ts == [] then ([], true)
    else
      var (a, ok) := Visit(ts[0].kids, f);
      if !ok then (a, false)
      else
        var (b, ok2) := Descend(ts[1..], f);
        (a + b, ok2)
  }

  /** The first loop calls the iterator on the children in order, stopping at the first false answer. */
  lemma {:induction false} CallEachStopsAtFirstFalse(ts: seq<Node>, f: Node -> bool)
    ensures var (calls, ok) := CallEach(ts, f);
      (ok ==> calls == ts && forall i :: 0 <= i < |ts| ==> f(ts[i]))
      && (!ok ==> exists k :: 0 <= k < |ts| && calls == ts[..k + 1] && !f(ts[k]) && forall i :: 0 <= i < k ==> f(ts[i]))
  {
    if ts != [] && f(ts[0]) {
      CallEachStopsAtFirstFalse(ts[1..], f);
      var (rest, ok) := CallEach(ts[1..], f);
      if !ok {
        var k :| 0 <= k < |ts| - 1 && rest == ts[1..][..k + 1] && !f(ts[1..][k]) && forall i :: 0 <= i < k ==> f(ts[1..][i]);
        assert [ts[0]] + rest == ts[..k + 2];
        assert forall i :: 0 <= i < k + 1 ==> f(ts[i]) by {
          forall i | 0 <= i < k + 1 ensures f(ts[i]) {
            if i > 0 { assert ts[i] == ts[1..][i - 1]; }
          }
        }
      } else {
        assert [ts[0]] + ts[1..] == ts;
      }
    } else if ts != [] {
      assert ts[..1] == [ts[0]];
    }
  }

  /** The iterator is called on every direct child before any grandchild, unless a child stops the visit. */
  lemma ChildrenFirst(ts: seq<Node>, f: Node -> bool)
    requires forall i :: 0 <= i < |ts| ==> f(ts[i])
    ensures |Visit(ts, f).0| >= |ts| && Visit(ts, f).0[..|ts|] == ts
  {
    CallEachStopsAtFirstFalse(ts, f);
  }

  /** The calls made answered true throughout when `ok`, and otherwise the last one answered false, and only it. */
  predicate StopsAtFirstFalse(calls: seq<Node>, ok: bool, f: Node -> bool)
  {
    (ok <==> forall i :: 0 <= i < |calls| ==> f(calls[i]))
    && (!ok ==> |calls| > 0 && !f(calls[|calls| - 1]) && forall i :: 0 <= i < |calls| - 1 ==> f(calls[i]))
  }

  /** Calls that all answered true, followed by calls that stop at the first false, stop at the first false. */
  lemma StopsAfter(a: seq<Node>, b: seq<Node>, ok: bool, f: Node -> bool)
    requires StopsAtFirstFalse(a, true, f) && StopsAtFirstFalse(b, ok, f)
    ensures StopsAtFirstFalse(a + b, ok, f)
  {
    assert forall i :: 0 <= i < |a| ==> (a + b)[i] == a[i];
    assert forall i :: 0 <= i < |b| ==> (a + b)[|a| + i] == b[i];
  }

  /** The visit answers false exactly when some call answered false, and that call was the last. */
  lemma {:induction false} VisitStopsAtFirstFalse(ts: seq<Node>, f: Node -> bool)
    ensures StopsAtFirstFalse(Visit(ts, f).0, Visit(ts, f).1, f)
    decreases ts, 1
  {
    CallEachStopsAtFirstFalse(ts, f);
    var (a, ok) := CallEach(ts, f);
    if ok {
      DescendStopsAtFirstFalse(ts, f);
      var (b, ok2) := Descend(ts, f);
      StopsAfter(a, b, ok2, f);
    }
  }

  lemma {:induction false} DescendStopsAtFirstFalse(ts: seq<Node>, f: Node -> bool)
    ensures StopsAtFirstFalse(Descend(ts, f).0, Descend(ts, f).1, f)
    decreases ts, 0
  {
    if ts != [] {
      VisitStopsAtFirstFalse(ts[0].kids, f);
      var (a, ok) := Visit(ts[0].kids, f);
      if ok {
        DescendStopsAtFirstFalse(ts[1..], f);
        var (b, ok2) := Descend(ts[1..], f);
        StopsAfter(a, b, ok2, f);
      }
    }
  }

  /** A visit that runs to the end calls the iterator once on every node of the forest. */
  lemma {:induction false} CompleteVisitCoversTree(ts: seq<Node>, f: Node -> bool)
    requires Visit(ts, f).1
    ensures multiset(Visit(ts, f).0) == multiset(Preorder(ts))
    decreases ts, 1
  {
    CallEachStopsAtFirstFalse(ts, f);
    CompleteDescentCoversSubtrees(ts, f);
    ForestSplits(ts);
  }

  lemma {:induction false} CompleteDescentCoversSubtrees(ts: seq<Node>, f: Node -> bool)
    requires Descend(ts, f).1
    ensures multiset(Descend(ts, f).0) == multiset(Subtrees(ts))
    decreases ts, 0
  {
    if ts != [] {
      CompleteVisitCoversTree(ts[0].kids, f);
      CompleteDescentCoversSubtrees(ts[1..], f);
    }
  }

  /** The nodes below the roots `ts`, subtree after subtree. */
  function Subtrees(ts: seq<Node>): seq<Node>
    decreases ts
  {
    if ts == [] then [] else Preorder(ts[0].kids) + Subtrees(ts[1..])
  }

  /** A forest's nodes are its roots and the nodes below them. */
  lemma {:induction false} ForestSplits(ts: seq<Node>)
    ensures multiset(Preorder(ts)) == multiset(ts) + multiset(Subtrees(ts))
    decreases ts
  {
    if ts != [] {
      ForestSplits(ts[1..]);
      assert ts == [ts[0]] + ts[1..];
    }
  }

  // ---- the scene ----

  class Scene {
    var objects: seq<SceneObject>
    var mainCamera: SceneObject?

    constructor ()
      ensures objects == [] && mainCamera == null
    {
      objects := [];
      mainCamera := null;
    }

    /** `addObject`: appended; unlike `SceneObject::addObject`, the parent is not set. */
    method AddObject(obj: SceneObject)
      modifies this
      ensures objects == old(objects) + [obj] && mainCamera == old(mainCamera)
    {
      objects := objects + [obj];
    }

    /**
     * `removeObject`: the first occurrence goes, if any; the object's parent
     * is cleared regardless, and nothing else of it changes.
     */
    method RemoveObject(obj: SceneObject)
      modifies this, obj
      ensures objects == RemoveFirst(old(objects), obj) && obj.parent == null && mainCamera == old(mainCamera)
      ensures obj.State() == old(obj.State()).(parent := null)
    {
      objects := RemoveFirst(objects, obj);
      obj.SetParent(null);
    }

    method ClearObjects()
      modifies this
      ensures objects == [] && mainCamera == old(mainCamera)
    {
      objects := [];
    }

    /** `findObjectByName`: the first object with the name in depth-first preorder over the top-level objects. */
    method FindObjectByName(ghost ts: seq<Node>, name: string) returns (r: SceneObject?)
      requires Mirrors(objects, ts)
      ensures r == ObjectOf(FindIn(ts, name))
    {
      r := FindInForest(objects, ts, name);
    }
  }
}
