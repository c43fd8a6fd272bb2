// The scene resource pool: name-keyed caches of textures and archives, and
// the collection of a scene's materials and meshes under generated names.
module ScenePool {
  import opened Base
  import opened Meshes
  import opened Materials
  import opened Names
  import opened SceneGraph

  /** An archive, by identity (a non-null pointer); the archive library is not part of this model. */
  type ArchiveRef = nat

  /** `sob://` and `tob://` paths name a resource inside a bundle. */
  predicate IsBundlePath(path: string)
  {
    "sob://" <= path || "tob://" <= path
  }

  /** Every entry of `m` is in `r`, unchanged. */
  ghost predicate Keeps<V>(m: map<string, V>, r: map<string, V>)
  {
    forall k :: k in m ==> k in r && r[k] == m[k]
  }

  // ---- caches keyed by path or name ----

  /** What a cached load answers, the cache after it, and the next unused handle. */
  datatype Lookup = Lookup(result: Option<nat>, cache: map<string, nat>, next: nat)

  /** Every handle in the cache was handed out before `next`. */
  predicate Below(cache: map<string, nat>, next: nat)
  {
    forall k :: k in cache ==> cache[k] < next
  }

  /**
   * The cache discipline of `getTexture` and `loadArchive`: a cached key
   * answers its cached object; otherwise a new object is created, and kept
   * under the key only when `loads` says it could be loaded.
   */
  function CachedLoad(cache: map<string, nat>, next: nat, key: string, loads: bool): (r: Lookup)
    ensures r.result.Some? <==> key in cache || loads
    ensures r.result.Some? ==> key in r.cache && r.cache[key] == r.result.value
    ensures r.result.None? ==> r.cache == cache
    ensures key in cache ==> r.result == Some(cache[key]) && r.cache == cache
    ensures r.cache.Keys <= cache.Keys + {key} && Keeps(cache, r.cache)
    ensures Below(cache, next) ==> Below(r.cache, r.next)
    ensures Below(cache, next) && key !in cache && loads ==> r.result.value !in cache.Values
  {
    if key in cache then Lookup(Some(cache[key]), cache, next)
    else if loads then Lookup(Some(next), cache[key := next], next + 1)
    else Lookup(None, cache, next)
  }

  /** Once a key is cached, asking again answers the same object, whether or not a load would now succeed. */
  lemma CachedLoadIsStable(cache: map<string, nat>, next: nat, key: string, loads: bool, loadsAgain: bool)
    requires CachedLoad(cache, next, key, loads).result.Some?
    ensures var r := CachedLoad(cache, next, key, loads);
      CachedLoad(r.cache, r.next, key, loadsAgain) == Lookup(r.result, r.cache, r.next)
  {
  }

  /** A failed load leaves nothing behind: asking again is a fresh attempt. */
  lemma FailedLoadIsNotCached(cache: map<string, nat>, next: nat, key: string)
    requires key !in cache
    ensures var r := CachedLoad(cache, next, key, false);
      r.result.None? && key !in r.cache && r.next == next
  {
  }

  // ---- mesh names ----

  /** The name `collect` gives its `i`th mesh: `mesh1`, `mesh2`, ... */
  function MeshKey(i: nat): string
  {
    "mesh" + Decimal(i)
  }

  lemma MeshKeyInjective(a: nat, b: nat)
    requires MeshKey(a) == MeshKey(b)
    ensures a == b
  {
    assert Decimal(a) == MeshKey(a)[4..] == MeshKey(b)[4..] == Decimal(b);
    DecimalInjective(a, b);
  }

  /** The mesh names are `mesh1` ... `meshN` for a pool of N meshes. */
  ghost predicate DenseMeshKeys(meshes: map<string, Mesh>)
  {
    forall k :: k in meshes ==> exists i :: 1 <= i <= |meshes| && k == MeshKey(i)
  }

  /** In a dense pool the next generated name is free. */
  lemma NextMeshKeyFree(meshes: map<string, Mesh>)
    requires DenseMeshKeys(meshes)
    ensures MeshKey(|meshes| + 1) !in meshes
  {
    if MeshKey(|meshes| + 1) in meshes {
      var i :| 1 <= i <= |meshes| && MeshKey(|meshes| + 1) == MeshKey(i);
      MeshKeyInjective(|meshes| + 1, i);
    }
  }

  /** One mesh of `collect`: a mesh already pooled (by identity) is skipped, a new one is named after the pool's size. */
  function AddMesh(meshes: map<string, Mesh>, m: Mesh): (r: map<string, Mesh>)
    ensures m in r.Values
    ensures m in meshes.Values ==> r == meshes
    ensures r.Keys <= meshes.Keys + {MeshKey(|meshes| + 1)}
  {
    if m in meshes.Values then meshes
    else
      var r := meshes[MeshKey(|meshes| + 1) := m];
      assert r[MeshKey(|meshes| + 1)] == m;
      r
  }

  /** Adding a mesh to a dense pool overwrites nothing and keeps it dense. */
  lemma AddMeshKeeps(meshes: map<string, Mesh>, m: Mesh)
    requires DenseMeshKeys(meshes)
    ensures Keeps(meshes, AddMesh(meshes, m)) && DenseMeshKeys(AddMesh(meshes, m))
  {
    if m !in meshes.Values {
      var key := MeshKey(|meshes| + 1);
      NextMeshKeyFree(meshes);
      var r := meshes[key := m];
      assert |r| == |meshes| + 1 by {
        assert r.Keys == meshes.Keys + {key};
      }
      forall k | k in r
        ensures exists i :: 1 <= i <= |r| && k == MeshKey(i)
      {
        if k == key {
          assert k == MeshKey(|r|);
        } else {
          var i :| 1 <= i <= |meshes| && k == MeshKey(i);
          assert 1 <= i <= |r|;
        }
      }
    }
  }

  /** The meshes loop of `collect`: each mesh of the object, in order. */
  function AddMeshes(meshes: map<string, Mesh>, ms: seq<Mesh>): (r: map<string, Mesh>)
    ensures ms != [] ==> ms[|ms| - 1] in r.Values
  {
    if ms == [] then meshes else AddMesh(AddMeshes(meshes, ms[..|ms| - 1]), ms[|ms| - 1])
  }

  lemma AddMeshesStep(meshes: map<string, Mesh>, ms: seq<Mesh>, i: nat)
    requires i < |ms|
    ensures AddMeshes(meshes, ms[..i + 1]) == AddMesh(AddMeshes(meshes, ms[..i]), ms[i])
  {
    assert ms[..i + 1][..i] == ms[..i];
  }

  /** In a dense pool the loop overwrites nothing, keeps the pool dense, and pools every mesh of the object. */
  lemma {:induction false} AddMeshesKeeps(meshes: map<string, Mesh>, ms: seq<Mesh>)
    requires DenseMeshKeys(meshes)
    ensures var r := AddMeshes(meshes, ms);
      Keeps(meshes, r) && DenseMeshKeys(r) && forall i :: 0 <= i < |ms| ==> ms[i] in r.Values
  {
    if ms != [] {
      var init := ms[..|ms| - 1];
      AddMeshesKeeps(meshes, init);
      var before := AddMeshes(meshes, init);
      AddMeshKeeps(before, ms[|ms| - 1]);
      var r := AddMesh(before, ms[|ms| - 1]);
      forall i | 0 <= i < |ms|
        ensures ms[i] in r.Values
      {
        if i < |ms| - 1 {
          assert init[i] == ms[i];
          var k :| k in before && before[k] == ms[i];
          assert r[k] == ms[i];
        }
      }
    }
  }

  // ---- materials ----

  /** The name a new material is pooled under, before it is made unique: its own, else the object's, else `mat`. */
  function MaterialBaseName(materialName: string, objectName: string): string
  {
    if materialName != "" then materialName else if objectName != "" then objectName else "mat"
  }

  /** Some pooled material `equals` `m`. */
  predicate Pooled(materials: map<string, Material>, m: Material)
  {
    exists k :: k in materials && Equals(materials[k], m)
  }

  /**
   * The material step of `collect`: a material other than the default, and
   * equal to none pooled, is pooled under a new unique name.
   */
  function CollectMaterial(materials: map<string, Material>, m: Material, objectName: string): (r: map<string, Material>)
    ensures Keeps(materials, r)
    ensures Equals(m, DefaultMaterial) || Pooled(r, m)
    ensures Equals(m, DefaultMaterial) || Pooled(materials, m) ==> r == materials
    ensures r != materials ==>
      exists name :: UniqueNameOf(materials.Keys, MaterialBaseName(m.name, objectName), name) && r == materials[name := m]
  {
    if Equals(m, DefaultMaterial) || Pooled(materials, m) then materials
    else
      var name := UniqueName(materials.Keys, MaterialBaseName(m.name, objectName));
      EqualsReflexive(m);
      assert materials[name := m][name] == m;
      materials[name := m]
  }

  // ---- collect over a scene tree ----

  /** The part of the pool that `collect` fills. */
  datatype Collection = Collection(materials: map<string, Material>, meshes: map<string, Mesh>)

  /** The object's own part of `collect`: its material, then its meshes. */
  function CollectNode(s: Collection, t: Node): Collection
  {
    Collection(CollectMaterial(s.materials, t.material, t.name), AddMeshes(s.meshes, t.meshes))
  }

  /** `collect(obj)`: the object, then each child's subtree in order. */
  function CollectTree(s: Collection, t: Node): Collection
    decreases t, 1
  {
    CollectForest(CollectNode(s, t), t.kids)
  }

  function CollectForest(s: Collection, ts: seq<Node>): Collection
    decreases ts, 0
  {
    if ts == [] then s else CollectForest(CollectTree(s, ts[0]), ts[1..])
  }

  /** The children loop one step further on. */
  lemma {:induction false} CollectForestSnoc(s: Collection, ts: seq<Node>, t: Node)
    ensures CollectForest(s, ts + [t]) == CollectTree(CollectForest(s, ts), t)
    decreases ts
  {
    if ts != [] {
      assert (ts + [t])[1..] == ts[1..] + [t];
      CollectForestSnoc(CollectTree(s, ts[0]), ts[1..], t);
    } else {
      assert ([] + [t])[1..] == [];
    }
  }

  /** Both maps keep their entries, and the mesh names stay dense. */
  ghost predicate Grows(s: Collection, r: Collection)
  {
    Keeps(s.materials, r.materials) && Keeps(s.meshes, r.meshes) && (DenseMeshKeys(s.meshes) ==> DenseMeshKeys(r.meshes))
  }

  /** The node's material, unless it is the default, and every one of its meshes are pooled. */
  ghost predicate Covers(s: Collection, n: Node)
  {
    (!Equals(n.material, DefaultMaterial) ==> Pooled(s.materials, n.material))
    && forall i :: 0 <= i < |n.meshes| ==> n.meshes[i] in s.meshes.Values
  }

  lemma CoversKept(s: Collection, r: Collection, n: Node)
    requires Covers(s, n) && Keeps(s.materials, r.materials) && Keeps(s.meshes, r.meshes)
    ensures Covers(r, n)
  {
    if !Equals(n.material, DefaultMaterial) {
      var k :| k in s.materials && Equals(s.materials[k], n.material);
      assert k in r.materials && Equals(r.materials[k], n.material);
    }
    forall i | 0 <= i < |n.meshes|
      ensures n.meshes[i] in r.meshes.Values
    {
      assert n.meshes[i] in s.meshes.Values;
      var k :| k in s.meshes && s.meshes[k] == n.meshes[i];
      assert r.meshes[k] == n.meshes[i];
    }
  }

  lemma GrowsTransitive(a: Collection, b: Collection, c: Collection)
    requires Grows(a, b) && Grows(b, c)
    ensures Grows(a, c)
  {
  }

  /**
   * On a pool whose mesh names are dense, `collect` overwrites no entry,
   * keeps the names dense, and leaves every object of the subtree covered:
   * its material (unless default) and all its meshes are in the pool.
   */
  lemma {:induction false} CollectTreeCovers(s: Collection, t: Node)
    requires DenseMeshKeys(s.meshes)
    ensures Grows(s, CollectTree(s, t))
    ensures Covers(CollectTree(s, t), t)
    ensures forall n :: n in Preorder(t.kids) ==> Covers(CollectTree(s, t), n)
    decreases t, 1
  {
    var s1 := CollectNode(s, t);
    AddMeshesKeeps(s.meshes, t.meshes);
    assert Covers(s1, t);
    CollectForestCovers(s1, t.kids);
    var r := CollectForest(s1, t.kids);
    CoversKept(s1, r, t);
  }

  lemma {:induction false} CollectForestCovers(s: Collection, ts: seq<Node>)
    requires DenseMeshKeys(s.meshes)
    ensures Grows(s, CollectForest(s, ts))
    ensures forall n :: n in Preorder(ts) ==> Covers(CollectForest(s, ts), n)
    decreases ts, 0
  {
    if ts != [] {
      var s1 := CollectTree(s, ts[0]);
      CollectTreeCovers(s, ts[0]);
      CollectForestCovers(s1, ts[1..]);
      var r := CollectForest(s1, ts[1..]);
      GrowsTransitive(s, s1, r);
      CoversKept(s1, r, ts[0]);
      forall n | n in Preorder(ts[0].kids)
        ensures Covers(r, n)
      {
        CoversKept(s1, r, n);
      }
    }
  }

  // ---- the pool ----

  class SceneResourcePool {
    var meshes: map<string, Mesh>
    var materials: map<string, Material>
    var textures: map<string, TextureRef>
    var normalmaps: map<string, TextureRef>
    var archives: map<string, ArchiveRef>
    /** Stands for the allocator: the next texture or archive created gets this handle. */
    var nextHandle: nat

    /** The mesh names are dense, and every texture and archive handle has been handed out. */
    ghost predicate Valid()
      reads this
    {
      DenseMeshKeys(meshes) && Below(textures, nextHandle) && Below(archives, nextHandle)
    }

    constructor ()
      ensures Valid()
      ensures meshes == map[] && materials == map[] && textures == map[] && normalmaps == map[] && archives == map[]
    {
      meshes, materials, textures, normalmaps, archives := map[], map[], map[], map[], map[];
      nextHandle := 0;
    }

    /**
     * `getTexture(path)`: a cached path answers its texture; a bundle path
     * always gets a new texture, cached; any other path gets one only when
     * `fileLoads` says the file loads, and a failure is not cached.
     */
    method GetTexture(path: string, fileLoads: bool) returns (r: Option<TextureRef>)
      requires Valid()
      modifies this
      ensures Valid()
      ensures Lookup(r, textures, nextHandle) == CachedLoad(old(textures), old(nextHandle), path, IsBundlePath(path) || fileLoads)
      ensures meshes == old(meshes) && materials == old(materials) && normalmaps == old(normalmaps) && archives == old(archives)
    {
      if path in textures {
        return Some(textures[path]);
      }
      var tex := nextHandle;
      nextHandle := nextHandle + 1;
      if IsBundlePath(path) {
        r := Some(tex);
      } else if fileLoads {
        r := Some(tex);
      } else {
        r := None;
        nextHandle := nextHandle - 1;
      }
      if r.Some? {
        textures := textures[path := r.value];
      }
    }

    /**
     * `loadArchive(name, path)`: the archive cached under `name`, else the one
     * read from `path` when `loads` says it reads, cached under `name`; a
     * failure answers nothing and is not cached.
     */
    method LoadArchive(name: string, path: string, loads: bool) returns (r: Option<ArchiveRef>)
      requires Valid()
      modifies this
      ensures Valid()
      ensures Lookup(r, archives, nextHandle) == CachedLoad(old(archives), old(nextHandle), name, loads)
      ensures meshes == old(meshes) && materials == old(materials) && textures == old(textures) && normalmaps == old(normalmaps)
    {
      if name in archives {
        return Some(archives[name]);
      }
      if !loads {
        return None;
      }
      var archive := nextHandle;
      nextHandle := nextHandle + 1;
      archives := archives[name := archive];
      r := Some(archive);
    }

    /** `loadArchive(path)`: the archive is cached under its path. */
    method LoadArchiveAt(path: string, loads: bool) returns (r: Option<ArchiveRef>)
      requires Valid()
      modifies this
      ensures Valid()
      ensures Lookup(r, archives, nextHandle) == CachedLoad(old(archives), old(nextHandle), path, loads)
      ensures meshes == old(meshes) && materials == old(materials) && textures == old(textures) && normalmaps == old(normalmaps)
    {
      r := LoadArchive(path, path, loads);
    }

    /** `getAvailableMaterialName`: the name if no pooled material has it, else the first free `name_k`, `k >= 2`. */
    method GetAvailableMaterialName(name: string) returns (r: string)
      ensures UniqueNameOf(materials.Keys, name, r)
    {
      if name !in materials {
        return name;
      }
      var index := 2;
      while true
        invariant index >= 2 && forall i :: 2 <= i < index ==> Suffixed(name, i) in materials.Keys
        decreases TakenFrom(materials.Keys, name, index)
      {
        r := Suffixed(name, index);
        if r !in materials {
          assert FirstFree(materials.Keys, name, index);
          return;
        }
        TakenFromShrinks(materials.Keys, name, index);
        index := index + 1;
      }
    }

    /**
     * `collect(obj)`: the object's material, then its meshes, then each
     * child's subtree in order, as `CollectTree` describes; see
     * `CollectTreeCovers` for what that leaves in the pool.
     */
    method Collect(obj: SceneObject, ghost t: Node)
      requires Valid() && t.obj == obj && Agrees(t) && Mirrors(obj.objects, t.kids)
      modifies this
      ensures Valid()
      ensures Collection(materials, meshes) == CollectTree(Collection(old(materials), old(meshes)), t)
      ensures textures == old(textures) && normalmaps == old(normalmaps) && archives == old(archives)
      ensures nextHandle == old(nextHandle)
      decreases t, 3
    {
      MirroredAllocated(obj.objects, t.kids);
      CollectOwnMaterial(obj.material, obj.name);
      ghost var m0 := meshes;
      CollectMeshes(obj.meshes);
      AddMeshesKeeps(m0, obj.meshes);
      CollectChildren(obj.objects, t.kids);
    }

    /** The children loop of `collect`: each child's subtree, in order. */
    method CollectChildren(objs: seq<SceneObject>, ghost ts: seq<Node>)
      requires Valid() && Mirrors(objs, ts)
      modifies this
      ensures Valid()
      ensures Collection(materials, meshes) == CollectForest(Collection(old(materials), old(meshes)), ts)
      ensures textures == old(textures) && normalmaps == old(normalmaps) && archives == old(archives)
      ensures nextHandle == old(nextHandle)
      decreases ts, 2
    {
      ghost var s0 := Collection(materials, meshes);
      for i := 0 to |objs|
        invariant Valid() && Collection(materials, meshes) == CollectForest(s0, ts[..i])
        invariant Mirrors(objs, ts)
        invariant textures == old(textures) && normalmaps == old(normalmaps) && archives == old(archives)
        invariant nextHandle == old(nextHandle)
      {
        MirroredAllocated(objs, ts);
        MirrorsAt(objs, ts, i);
        CollectStep(s0, objs[i], ts, i);
      }
      assert ts[..|objs|] == ts;
    }

    /** One step of the children loop: the `i`th child's subtree. */
    method CollectStep(ghost s0: Collection, obj: SceneObject, ghost ts: seq<Node>, i: nat)
      requires i < |ts| && ts[i].obj == obj && Agrees(ts[i]) && Mirrors(obj.objects, ts[i].kids)
      requires Valid() && Collection(materials, meshes) == CollectForest(s0, ts[..i])
      modifies this
      ensures Valid() && Collection(materials, meshes) == CollectForest(s0, ts[..i + 1])
      ensures textures == old(textures) && normalmaps == old(normalmaps) && archives == old(archives)
      ensures nextHandle == old(nextHandle)
      decreases ts, 1
    {
      Collect(obj, ts[i]);
      assert ts[..i + 1] == ts[..i] + [ts[i]];
      CollectForestSnoc(s0, ts[..i], ts[i]);
    }

    /** The meshes part of `collect`. */
    method CollectMeshes(ms: seq<Mesh>)
      modifies this
      ensures meshes == AddMeshes(old(meshes), ms)
      ensures materials == old(materials) && textures == old(textures) && normalmaps == old(normalmaps)
      ensures archives == old(archives) && nextHandle == old(nextHandle)
    {
      for i := 0 to |ms|
        invariant meshes == AddMeshes(old(meshes), ms[..i])
        invariant materials == old(materials) && textures == old(textures) && normalmaps == old(normalmaps)
        invariant archives == old(archives) && nextHandle == old(nextHandle)
      {
        AddMeshesStep(old(meshes), ms, i);
        var mesh := ms[i];
        if mesh !in meshes.Values {
          meshes := meshes[MeshKey(|meshes| + 1) := mesh];
        }
      }
      assert ms[..|ms|] == ms;
    }

    /** The material part of `collect`. */
    method CollectOwnMaterial(m: Material, objectName: string)
      modifies this
      ensures materials == CollectMaterial(old(materials), m, objectName)
      ensures meshes == old(meshes) && textures == old(textures) && normalmaps == old(normalmaps)
      ensures archives == old(archives) && nextHandle == old(nextHandle)
    {
      if !Equals(m, DefaultMaterial) {
        var found := exists k :: k in materials && Equals(materials[k], m);
        if !found {
          var matName := m.name;
          if matName == "" {
            matName := objectName;
          }
          if matName == "" {
            matName := "mat";
          }
          matName := GetAvailableMaterialName(matName);
          UniqueNameOfIsFunctional(materials.Keys, MaterialBaseName(m.name, objectName), matName);
          materials := materials[matName := m];
        }
      }
    }

    /** `clear`: every cache is emptied. */
    method Clear()
      modifies this
      ensures meshes == map[] && materials == map[] && textures == map[] && normalmaps == map[] && archives == map[]
      ensures nextHandle == old(nextHandle) && Valid()
    {
      meshes, materials, textures, normalmaps, archives := map[], map[], map[], map[], map[];
    }
  }
}
