// The space trees of the ray renderer: where `putTriangleIntoTree` places a
// transformed triangle, and how the nearest-hit and ray-blocked scans walk a
// tree and the list of transformed meshes.
//
// The shape of a tree and the bounds of its nodes are built by the vector
// library's `initSpace`, which is not part of this model: a node's bound,
// split flag and children are fixed when it is made, and only its triangle
// list changes. Whether a node's bound meets a triangle or a ray, and whether
// a mesh's bounding box meets a ray, is that library's geometry and is passed
// in as a function.
module SpaceTrees {
  import opened Base
  import opened Materials
  import MeshTypes
  import opened RayCommon

  /** A triangle in a node list: the `RayRenderTriangle` and the material of its object. */
  datatype Entry = Entry(rt: RenderTriangle, material: Material)

  /** `SpaceTreeNode::intersectTriangle`, applied to a node's bound. */
  type TriangleTest = (MeshTypes.BoundingBox, Corners) -> bool

  /** `SpaceTreeNode::intersectRay`, and `rayIntersectBox` on a mesh's box. */
  type RayTest = (MeshTypes.BoundingBox, Ray) -> bool

  class SpaceTreeNode {
    const bound: MeshTypes.BoundingBox
    const splitted: bool
    const left: SpaceTreeNode?
    const right: SpaceTreeNode?
    var list: seq<Entry>

    ghost const Repr: set<SpaceTreeNode>
    ghost const height: nat

    /** The node and its descendants form a tree: the two subtrees are disjoint and lower. */
    ghost predicate Valid()
      decreases height
    {
      this in Repr &&
      (splitted ==>
        left != null && right != null &&
        left in Repr && right in Repr &&
        left.Repr <= Repr && right.Repr <= Repr &&
        this !in left.Repr && this !in right.Repr &&
        left.Repr !! right.Repr &&
        left.height < height && right.height < height &&
        left.Valid() && right.Valid())
    }

    /** A node that is not split. */
    constructor Leaf(bound: MeshTypes.BoundingBox)
      ensures Valid() && !splitted && list == []
      ensures this.bound == bound && Repr == {this}
    {
      this.bound := bound;
      splitted := false;
      left, right := null, null;
      list := [];
      Repr := {this};
      height := 0;
    }

    /** A split node over two existing, disjoint subtrees. */
    constructor Split(bound: MeshTypes.BoundingBox, l: SpaceTreeNode, r: SpaceTreeNode)
      requires l.Valid() && r.Valid() && l.Repr !! r.Repr
      ensures Valid() && splitted && left == l && right == r && list == []
      ensures this.bound == bound && Repr == {this} + l.Repr + r.Repr
    {
      this.bound := bound;
      splitted := true;
      left, right := l, r;
      list := [];
      Repr := {this} + l.Repr + r.Repr;
      height := (if l.height < r.height then r.height else l.height) + 1;
    }
  }

  // ---------------------------------------------------------------------
  // Placing a triangle
  // ---------------------------------------------------------------------

  /**
   * The node whose list receives `e`: descend while the node is split and
   * exactly one of its children meets the triangle.
   */
  ghost function Destination(node: SpaceTreeNode, e: Entry, meets: TriangleTest): (d: SpaceTreeNode)
    requires node.Valid()
    ensures d in node.Repr && d.Valid()
    decreases node.height
  {
    if !node.splitted then node
    else
      var inLeft := meets(node.left.bound, e.rt.corners);
      var inRight := meets(node.right.bound, e.rt.corners);
      if inLeft && inRight then node
      else if inLeft then Destination(node.left, e, meets)
      else if inRight then Destination(node.right, e, meets)
      else node
  }

  /**
   * The descent stops at a node that is not split, or whose children both
   * meet the triangle or both miss it; and it stays inside the subtree of
   * the one child that meets the triangle.
   */
  lemma {:induction false} DestinationStopsDescent(node: SpaceTreeNode, e: Entry, meets: TriangleTest)
    requires node.Valid()
    ensures var d := Destination(node, e, meets);
            !d.splitted || meets(d.left.bound, e.rt.corners) == meets(d.right.bound, e.rt.corners)
    ensures node.splitted && meets(node.left.bound, e.rt.corners) && !meets(node.right.bound, e.rt.corners)
            ==> Destination(node, e, meets) in node.left.Repr
    ensures node.splitted && !meets(node.left.bound, e.rt.corners) && meets(node.right.bound, e.rt.corners)
            ==> Destination(node, e, meets) in node.right.Repr
    decreases node.height
  {
    if node.splitted {
      var inLeft := meets(node.left.bound, e.rt.corners);
      var inRight := meets(node.right.bound, e.rt.corners);
      if inLeft && !inRight {
        DestinationStopsDescent(node.left, e, meets);
      } else if !inLeft && inRight {
        DestinationStopsDescent(node.right, e, meets);
      }
    }
  }

  /**
   * `putTriangleIntoTree`: the triangle is appended to the list of exactly
   * one node, its destination, and every other list is unchanged. The
   * result is always true.
   */
  method PutTriangleIntoTree(node: SpaceTreeNode, e: Entry, meets: TriangleTest) returns (placed: bool)
    requires node.Valid()
    modifies node.Repr
    ensures placed
    ensures var d := Destination(node, e, meets); d.list == old(d.list) + [e]
    ensures forall n :: n in node.Repr && n != Destination(node, e, meets) ==> n.list == old(n.list)
    decreases node.height, 1
  {
    var inChild := false;
    if node.splitted {
      inChild := PutTriangleIntoChildrenNode(node, e, meets);
    }
    if !inChild {
      node.list := node.list + [e];
    }
    placed := true;
  }

  /**
   * `putTriangleIntoChildrenNode`: succeeds exactly when one child alone
   * meets the triangle, having placed it in that child's subtree; otherwise
   * nothing changes.
   */
  method PutTriangleIntoChildrenNode(node: SpaceTreeNode, e: Entry, meets: TriangleTest) returns (ok: bool)
    requires node.Valid() && node.splitted
    modifies node.Repr
    ensures ok <==> meets(node.left.bound, e.rt.corners) != meets(node.right.bound, e.rt.corners)
    ensures ok ==> var d := Destination(node, e, meets); d.list == old(d.list) + [e]
    ensures ok ==> forall n :: n in node.Repr && n != Destination(node, e, meets) ==> n.list == old(n.list)
    ensures !ok ==> forall n :: n in node.Repr ==> n.list == old(n.list)
    decreases node.height, 0
  {
    var inLeft := meets(node.left.bound, e.rt.corners);
    var inRight := meets(node.right.bound, e.rt.corners);
    if inLeft && inRight {
      ok := false;
    } else if inLeft {
      ok := PutTriangleIntoTree(node.left, e, meets);
    } else if inRight {
      ok := PutTriangleIntoTree(node.right, e, meets);
    } else {
      ok := false;
    }
  }

  // ---------------------------------------------------------------------
  // The nearest-hit scan
  // ---------------------------------------------------------------------

  /** `RayMeshIntersection`: the nearest triangle so far (NULL when none), its distance and hit point. */
  datatype Nearest = Nearest(entry: Option<Entry>, t: real, hit: Vec3)

  /**
   * The `t` and `hit` locals handed to `intersectsRay` are uninitialised; the
   * scans read them only after an accepted hit has written them, so any
   * value stands for them.
   */
  const Unwritten: HitState := HitState(0.0, Zero3)

  /** One triangle of a list scan: it replaces `rmi` when it is hit within `rmi.t`. */
  function ScanStep(cur: Nearest, e: Entry, ray: Ray): Nearest
  {
    var x := IntersectsRay(e.rt, ray, cur.t, Unwritten);
    if x.accepted then Nearest(Some(e), x.out.t, x.out.hit) else cur
  }

  /** The scan of a node list, in order. */
  function ScanList(list: seq<Entry>, ray: Ray, rmi: Nearest): Nearest
  {
    if list == [] then rmi
    else ScanStep(ScanList(list[..|list| - 1], ray, rmi), list[|list| - 1], ray)
  }

  /** `scanSpaceTreeNearestTriangle`: the node's own list, then each child whose bound meets the ray. */
  function ScanTree(node: SpaceTreeNode, ray: Ray, rmi: Nearest, meetsRay: RayTest): Nearest
    requires node.Valid()
    reads node.Repr
    decreases node.height
  {
    var r0 := ScanList(node.list, ray, rmi);
    if !node.splitted then r0
    else
      var r1 := if meetsRay(node.left.bound, ray) then ScanTree(node.left, ray, r0, meetsRay) else r0;
      if meetsRay(node.right.bound, ray) then ScanTree(node.right, ray, r1, meetsRay) else r1
  }

  /** The triangles a scan of the tree looks at, in the order it looks at them. */
  function Visited(node: SpaceTreeNode, ray: Ray, meetsRay: RayTest): seq<Entry>
    requires node.Valid()
    reads node.Repr
    decreases node.height
  {
    node.list +
      if !node.splitted then []
      else
        (if meetsRay(node.left.bound, ray) then Visited(node.left, ray, meetsRay) else []) +
        (if meetsRay(node.right.bound, ray) then Visited(node.right, ray, meetsRay) else [])
  }

  /** Whether `intersectsRay` accepts `e` for `ray` within `maxt`. */
  predicate HitWithin(e: Entry, ray: Ray, maxt: real)
  {
    IntersectsRay(e.rt, ray, maxt, Unwritten).accepted
  }

  /** The distance of the ray's plane crossing, where `intersectsRay` would place the hit. */
  function HitDistance(e: Entry, ray: Ray): real
  {
    var d := Distance(e.rt, ray);
    if d.Finite? then d.value else 0.0
  }

  /**
   * `r` is the nearest hit among `entries` within the starting bound `rmi.t`:
   * it is no farther than `rmi`, no farther than any of those triangles the
   * ray hits within that bound, and it is either `rmi` itself or one of them
   * with its own distance and hit point.
   */
  ghost predicate NearestAmong(entries: seq<Entry>, ray: Ray, r: Nearest, rmi: Nearest)
  {
    r.t <= rmi.t &&
    (forall i :: 0 <= i < |entries| && HitWithin(entries[i], ray, rmi.t) ==> r.t <= HitDistance(entries[i], ray)) &&
    (r == rmi ||
      (r.entry.Some? && r.entry.value in entries && HitWithin(r.entry.value, ray, rmi.t)
       && r.t == HitDistance(r.entry.value, ray)
       && r.hit == Add(ray.origin, Scale(ray.dir, r.t))))
  }

  /** Acceptance depends on the bound only through `distance <= maxt`. */
  lemma HitWithinBound(e: Entry, ray: Ray, maxt: real)
    ensures HitWithin(e, ray, maxt) ==> 0.0 <= HitDistance(e, ray) <= maxt
    ensures HitWithin(e, ray, maxt) ==>
              IntersectsRay(e.rt, ray, maxt, Unwritten).out
              == HitState(HitDistance(e, ray), Add(ray.origin, Scale(ray.dir, HitDistance(e, ray))))
    ensures forall m: real :: HitWithin(e, ray, maxt) && HitDistance(e, ray) <= m ==> HitWithin(e, ray, m)
  {
    IntersectsRayAccepts(e.rt, ray, maxt, Unwritten);
    IntersectsRayOutputs(e.rt, ray, maxt, Unwritten);
    forall m: real | HitWithin(e, ray, maxt) && HitDistance(e, ray) <= m
      ensures HitWithin(e, ray, m)
    {
      IntersectsRayAccepts(e.rt, ray, m, Unwritten);
    }
  }

  /** A single step keeps the nearest hit among the one triangle it looks at. */
  lemma ScanStepIsNearest(cur: Nearest, e: Entry, ray: Ray)
    ensures NearestAmong([e], ray, ScanStep(cur, e, ray), cur)
  {
    HitWithinBound(e, ray, cur.t);
    IntersectsRayAccepts(e.rt, ray, cur.t, Unwritten);
  }

  /** Scanning `a` and then `b` finds the nearest hit among `a + b`. */
  lemma NearestAmongAppend(a: seq<Entry>, b: seq<Entry>, ray: Ray, rmi: Nearest, r1: Nearest, r2: Nearest)
    requires NearestAmong(a, ray, r1, rmi)
    requires NearestAmong(b, ray, r2, r1)
    ensures NearestAmong(a + b, ray, r2, rmi)
  {
    forall i | 0 <= i < |a + b| && HitWithin((a + b)[i], ray, rmi.t)
      ensures r2.t <= HitDistance((a + b)[i], ray)
    {
      var e := (a + b)[i];
      HitWithinBound(e, ray, rmi.t);
      if i >= |a| {
        assert e == b[i - |a|];
        if HitDistance(e, ray) <= r1.t {
          assert HitWithin(e, ray, r1.t);
        }
      } else {
        assert e == a[i];
      }
    }
    if r2 != rmi && r2 != r1 {
      HitWithinBound(r2.entry.value, ray, r1.t);
    }
  }

  /** Scanning a list finds the nearest hit among its triangles. */
  lemma {:induction false} ScanListIsNearest(list: seq<Entry>, ray: Ray, rmi: Nearest)
    ensures NearestAmong(list, ray, ScanList(list, ray, rmi), rmi)
    decreases |list|
  {
    if list == [] {
    } else {
      var init := list[..|list| - 1];
      var last := list[|list| - 1];
      ScanListIsNearest(init, ray, rmi);
      ScanStepIsNearest(ScanList(init, ray, rmi), last, ray);
      NearestAmongAppend(init, [last], ray, rmi, ScanList(init, ray, rmi), ScanList(list, ray, rmi));
      assert init + [last] == list;
    }
  }

  /** Nothing is nearest among no triangles but the starting intersection itself. */
  lemma NearestAmongNothing(ray: Ray, rmi: Nearest)
    ensures NearestAmong([], ray, rmi, rmi)
  {
  }

  /**
   * The tree scan finds the nearest hit among the triangles it visits: `rmi.t`
   * never increases, and a triangle is only taken when it is hit within the
   * current nearest distance.
   */
  lemma {:induction false} ScanTreeIsNearest(node: SpaceTreeNode, ray: Ray, rmi: Nearest, meetsRay: RayTest)
    requires node.Valid()
    ensures NearestAmong(Visited(node, ray, meetsRay), ray, ScanTree(node, ray, rmi, meetsRay), rmi)
    decreases node.height
  {
    var r0 := ScanList(node.list, ray, rmi);
    ScanListIsNearest(node.list, ray, rmi);
    if node.splitted {
      var inLeft := meetsRay(node.left.bound, ray);
      var inRight := meetsRay(node.right.bound, ray);
      var vl := if inLeft then Visited(node.left, ray, meetsRay) else [];
      var vr := if inRight then Visited(node.right, ray, meetsRay) else [];
      var r1 := if inLeft then ScanTree(node.left, ray, r0, meetsRay) else r0;
      var r2 := if inRight then ScanTree(node.right, ray, r1, meetsRay) else r1;
      if inLeft { ScanTreeIsNearest(node.left, ray, r0, meetsRay); } else { NearestAmongNothing(ray, r0); }
      if inRight { ScanTreeIsNearest(node.right, ray, r1, meetsRay); } else { NearestAmongNothing(ray, r1); }
      NearestAmongAppend(node.list, vl, ray, rmi, r0, r1);
      NearestAmongAppend(node.list + vl, vr, ray, rmi, r1, r2);
      assert Visited(node, ray, meetsRay) == node.list + vl + vr;
      assert ScanTree(node, ray, rmi, meetsRay) == r2;
    } else {
      assert node.list + [] == node.list;
    }
  }

  /** `scanSpaceTreeNearestTriangle`: a loop over the node's list, then the children whose bound meets the ray. */
  method ScanSpaceTreeNearestTriangle(node: SpaceTreeNode, ray: Ray, rmi: Nearest, meetsRay: RayTest) returns (r: Nearest)
    requires node.Valid()
    ensures r == ScanTree(node, ray, rmi, meetsRay)
    decreases node.height
  {
    r := rmi;
    var i := 0;
    while i < |node.list|
      invariant 0 <= i <= |node.list|
      invariant r == ScanList(node.list[..i], ray, rmi)
    {
      var e := node.list[i];
      var x := IntersectsRay(e.rt, ray, r.t, Unwritten);
      if x.accepted {
        r := Nearest(Some(e), x.out.t, x.out.hit);
      }
      assert node.list[..i + 1][..i] == node.list[..i];
      i := i + 1;
    }
    assert node.list[..i] == node.list;
    if node.splitted {
      if meetsRay(node.left.bound, ray) {
        r := ScanSpaceTreeNearestTriangle(node.left, ray, r, meetsRay);
      }
      if meetsRay(node.right.bound, ray) {
        r := ScanSpaceTreeNearestTriangle(node.right, ray, r, meetsRay);
      }
    }
  }

  // ---------------------------------------------------------------------
  // Scans over the transformed meshes
  // ---------------------------------------------------------------------

  /** The scan-relevant part of a `RayTransformedMesh`: its bounding box and its tree's root. */
  datatype TransformedMesh = TransformedMesh(bbox: MeshTypes.BoundingBox, root: SpaceTreeNode)

  ghost predicate MeshesValid(ms: seq<TransformedMesh>)
  {
    forall i :: 0 <= i < |ms| ==> ms[i].root.Valid()
  }

  ghost function MeshesRepr(ms: seq<TransformedMesh>): set<object>
  {
    set i, n | 0 <= i < |ms| && n in ms[i].root.Repr :: n
  }

  lemma MeshesPrefix(ms: seq<TransformedMesh>, k: nat)
    requires k <= |ms|
    ensures MeshesRepr(ms[..k]) <= MeshesRepr(ms)
    ensures MeshesRepr(ms[k..]) <= MeshesRepr(ms)
    ensures MeshesValid(ms) ==> MeshesValid(ms[..k]) && MeshesValid(ms[k..])
  {
    forall n | n in MeshesRepr(ms[k..]) ensures n in MeshesRepr(ms) {
      var i :| 0 <= i < |ms[k..]| && n in ms[k..][i].root.Repr;
      assert ms[k..][i] == ms[k + i];
    }
  }

  /** `scanBoundingBoxSpaceTreeNearestTriangle`: the meshes in order, each tree only when the ray meets the mesh's box. */
  function ScanMeshes(ms: seq<TransformedMesh>, ray: Ray, rmi: Nearest, meetsBox: RayTest, meetsRay: RayTest): Nearest
    requires MeshesValid(ms)
    reads MeshesRepr(ms)
    decreases |ms|
  {
    if ms == [] then rmi
    else
      var k := |ms| - 1;
      MeshesPrefix(ms, k);
      var r := ScanMeshes(ms[..k], ray, rmi, meetsBox, meetsRay);
      assert ms[k].root.Repr <= MeshesRepr(ms);
      if meetsBox(ms[k].bbox, ray) then ScanTree(ms[k].root, ray, r, meetsRay) else r
  }

  /** The triangles the mesh scan visits, in order. */
  function MeshesVisited(ms: seq<TransformedMesh>, ray: Ray, meetsBox: RayTest, meetsRay: RayTest): seq<Entry>
    requires MeshesValid(ms)
    reads MeshesRepr(ms)
    decreases |ms|
  {
    if ms == [] then []
    else
      var k := |ms| - 1;
      MeshesPrefix(ms, k);
      assert ms[k].root.Repr <= MeshesRepr(ms);
      MeshesVisited(ms[..k], ray, meetsBox, meetsRay)
        + (if meetsBox(ms[k].bbox, ray) then Visited(ms[k].root, ray, meetsRay) else [])
  }

  /** The mesh scan finds the nearest hit among every triangle it visits. */
  lemma {:induction false} ScanMeshesIsNearest(ms: seq<TransformedMesh>, ray: Ray, rmi: Nearest, meetsBox: RayTest, meetsRay: RayTest)
    requires MeshesValid(ms)
    ensures NearestAmong(MeshesVisited(ms, ray, meetsBox, meetsRay), ray, ScanMeshes(ms, ray, rmi, meetsBox, meetsRay), rmi)
    decreases |ms|
  {
    if ms != [] {
      var k := |ms| - 1;
      MeshesPrefix(ms, k);
      var r := ScanMeshes(ms[..k], ray, rmi, meetsBox, meetsRay);
      ScanMeshesIsNearest(ms[..k], ray, rmi, meetsBox, meetsRay);
      if meetsBox(ms[k].bbox, ray) {
        ScanTreeIsNearest(ms[k].root, ray, r, meetsRay);
        NearestAmongAppend(MeshesVisited(ms[..k], ray, meetsBox, meetsRay), Visited(ms[k].root, ray, meetsRay),
                           ray, rmi, r, ScanTree(ms[k].root, ray, r, meetsRay));
      } else {
        NearestAmongNothing(ray, r);
        NearestAmongAppend(MeshesVisited(ms[..k], ray, meetsBox, meetsRay), [], ray, rmi, r, r);
      }
    }
  }

  /** `scanBoundingBoxSpaceTreeNearestTriangle` as the loop it is. */
  method ScanBoundingBoxSpaceTreeNearestTriangle(ms: seq<TransformedMesh>, ray: Ray, rmi: Nearest, meetsBox: RayTest, meetsRay: RayTest)
    returns (r: Nearest)
    requires MeshesValid(ms)
    ensures r == ScanMeshes(ms, ray, rmi, meetsBox, meetsRay)
  {
    r := rmi;
    var i := 0;
    while i < |ms|
      invariant 0 <= i <= |ms|
      invariant r == ScanMeshes(ms[..i], ray, rmi, meetsBox, meetsRay)
    {
      MeshesPrefix(ms, i + 1);
      assert ms[..i + 1][..i] == ms[..i];
      assert ms[..i + 1][i] == ms[i];
      if meetsBox(ms[i].bbox, ray) {
        r := ScanSpaceTreeNearestTriangle(ms[i].root, ray, r, meetsRay);
      }
      i := i + 1;
    }
    assert ms[..i] == ms;
  }

  // ---------------------------------------------------------------------
  // The ray-blocked scan
  // ---------------------------------------------------------------------

  /** A hit triangle blocks the ray when it is nearly opaque or refracts noticeably. */
  predicate Opaque(m: Material)
  {
    m.transparency < 0.01 || m.refraction > 0.1
  }

  /** `e` is hit within `maxt` and blocks the ray. */
  predicate Blocks(e: Entry, ray: Ray, maxt: real)
  {
    HitWithin(e, ray, maxt) && Opaque(e.material)
  }

  /**
   * The list loop of `scanSpaceTreeRayBlocked`. `out` is the `t_out` pointer:
   * None when it is NULL, else the value it points at. The result says
   * whether 1 was returned (rather than falling through), and the pointee
   * afterwards: every hit writes its distance, even one that does not block.
   */
  function BlockedList(list: seq<Entry>, ray: Ray, maxt: real, out: Option<real>): (bool, Option<real>)
    decreases |list|
  {
    if list == [] then (false, out)
    else
      var x := IntersectsRay(list[0].rt, ray, maxt, Unwritten);
      var written := if x.accepted && out.Some? then Some(x.out.t) else out;
      if x.accepted && Opaque(list[0].material) then (true, written)
      else BlockedList(list[1..], ray, maxt, written)
  }

  /**
   * `scanSpaceTreeRayBlocked`: the node's list, then each child whose bound
   * meets the ray, scanned without `t_out`; the first block ends the scan.
   * Blocked is 1.0 and not blocked 0.0 in the source.
   */
  function RayBlocked(node: SpaceTreeNode, ray: Ray, maxt: real, out: Option<real>, meetsRay: RayTest): (bool, Option<real>)
    requires node.Valid()
    reads node.Repr
    decreases node.height
  {
    var (blocked, written) := BlockedList(node.list, ray, maxt, out);
    if blocked then (true, written)
    else if node.splitted && meetsRay(node.left.bound, ray) && RayBlocked(node.left, ray, maxt, None, meetsRay).0 then (true, written)
    else if node.splitted && meetsRay(node.right.bound, ray) && RayBlocked(node.right, ray, maxt, None, meetsRay).0 then (true, written)
    else (false, written)
  }

  /**
   * The list scan blocks exactly when some triangle of the list is hit within
   * `maxt` and is opaque: transparent hits never block. A NULL `t_out` stays
   * NULL, and a written one holds the distance of a hit triangle.
   */
  lemma {:induction false} BlockedListMeans(list: seq<Entry>, ray: Ray, maxt: real, out: Option<real>)
    ensures BlockedList(list, ray, maxt, out).0 <==> AnyBlocks(list, ray, maxt)
    ensures out.None? ==> BlockedList(list, ray, maxt, out).1.None?
    ensures var w := BlockedList(list, ray, maxt, out).1;
            w == out || exists i :: 0 <= i < |list| && HitWithin(list[i], ray, maxt) && w == Some(HitDistance(list[i], ray))
    decreases |list|
  {
    if list != [] {
      var x := IntersectsRay(list[0].rt, ray, maxt, Unwritten);
      var written := if x.accepted && out.Some? then Some(x.out.t) else out;
      HitWithinBound(list[0], ray, maxt);
      BlockedListMeans(list[1..], ray, maxt, written);
      if x.accepted && Opaque(list[0].material) {
        assert Blocks(list[0], ray, maxt);
      } else {
        forall i | 1 <= i < |list| ensures list[i] == list[1..][i - 1] { }
        assert !Blocks(list[0], ray, maxt);
        var w := BlockedList(list, ray, maxt, out).1;
        if w != written {
          var j :| 0 <= j < |list[1..]| && HitWithin(list[1..][j], ray, maxt) && w == Some(HitDistance(list[1..][j], ray));
          assert list[1..][j] == list[j + 1];
        }
      }
    }
  }

  /** `t_out` is written only by the root's own list: children are scanned with a NULL pointer. */
  lemma RayBlockedOutput(node: SpaceTreeNode, ray: Ray, maxt: real, out: Option<real>, meetsRay: RayTest)
    requires node.Valid()
    ensures RayBlocked(node, ray, maxt, out, meetsRay).1 == BlockedList(node.list, ray, maxt, out).1
    ensures out.None? ==> RayBlocked(node, ray, maxt, out, meetsRay).1.None?
  {
    BlockedListMeans(node.list, ray, maxt, out);
  }

  /** The tree scan blocks exactly when some visited triangle is hit within `maxt` and is opaque. */
  lemma {:induction false} RayBlockedMeans(node: SpaceTreeNode, ray: Ray, maxt: real, out: Option<real>, meetsRay: RayTest)
    requires node.Valid()
    ensures RayBlocked(node, ray, maxt, out, meetsRay).0 <==> AnyBlocks(Visited(node, ray, meetsRay), ray, maxt)
    decreases node.height
  {
    BlockedListMeans(node.list, ray, maxt, out);
    if node.splitted {
      var inLeft := meetsRay(node.left.bound, ray);
      var inRight := meetsRay(node.right.bound, ray);
      var vl := if inLeft then Visited(node.left, ray, meetsRay) else [];
      var vr := if inRight then Visited(node.right, ray, meetsRay) else [];
      if inLeft {
        RayBlockedMeans(node.left, ray, maxt, None, meetsRay);
      }
      if inRight {
        RayBlockedMeans(node.right, ray, maxt, None, meetsRay);
      }
      AnyBlocksAppend(node.list, vl, ray, maxt);
      AnyBlocksAppend(node.list + vl, vr, ray, maxt);
      assert Visited(node, ray, meetsRay) == node.list + vl + vr;
    } else {
      assert Visited(node, ray, meetsRay) == node.list;
    }
  }

  /** Some triangle of `list` blocks the ray within `maxt`. */
  ghost predicate AnyBlocks(list: seq<Entry>, ray: Ray, maxt: real)
  {
    exists i :: 0 <= i < |list| && Blocks(list[i], ray, maxt)
  }

  lemma AnyBlocksAppend(a: seq<Entry>, b: seq<Entry>, ray: Ray, maxt: real)
    ensures AnyBlocks(a + b, ray, maxt) <==> AnyBlocks(a, ray, maxt) || AnyBlocks(b, ray, maxt)
  {
    if AnyBlocks(a + b, ray, maxt) {
      var i :| 0 <= i < |a + b| && Blocks((a + b)[i], ray, maxt);
      if i < |a| { assert (a + b)[i] == a[i]; } else { assert (a + b)[i] == b[i - |a|]; }
    }
    if AnyBlocks(a, ray, maxt) {
      var i :| 0 <= i < |a| && Blocks(a[i], ray, maxt);
      assert (a + b)[i] == a[i];
    }
    if AnyBlocks(b, ray, maxt) {
      var i :| 0 <= i < |b| && Blocks(b[i], ray, maxt);
      assert (a + b)[|a| + i] == b[i];
    }
  }

  /** `scanSpaceTreeRayBlocked` as the source writes it: a list loop with an early return, then the children. */
  method ScanSpaceTreeRayBlocked(node: SpaceTreeNode, ray: Ray, maxt: real, out: Option<real>, meetsRay: RayTest)
    returns (blocked: bool, written: Option<real>)
    requires node.Valid()
    ensures (blocked, written) == RayBlocked(node, ray, maxt, out, meetsRay)
    decreases node.height
  {
    written := out;
    var i := 0;
    while i < |node.list|
      invariant 0 <= i <= |node.list|
      invariant BlockedList(node.list, ray, maxt, out) == BlockedList(node.list[i..], ray, maxt, written)
    {
      var e := node.list[i];
      var x := IntersectsRay(e.rt, ray, maxt, Unwritten);
      assert node.list[i..][0] == e && node.list[i..][1..] == node.list[i + 1..];
      if x.accepted {
        if written.Some? {
          written := Some(x.out.t);
        }
        if Opaque(e.material) {
          return true, written;
        }
      }
      i := i + 1;
    }
    if node.splitted {
      if meetsRay(node.left.bound, ray) {
        var b, _ := ScanSpaceTreeRayBlocked(node.left, ray, maxt, None, meetsRay);
        if b {
          return true, written;
        }
      }
      if meetsRay(node.right.bound, ray) {
        var b, _ := ScanSpaceTreeRayBlocked(node.right, ray, maxt, None, meetsRay);
        if b {
          return true, written;
        }
      }
    }
    blocked := false;
  }

  /** `scanBoundingBoxSpaceTreeRayBlocked`: the first mesh whose box meets the ray and whose tree blocks it. */
  function BlockedMeshes(ms: seq<TransformedMesh>, ray: Ray, maxt: real, out: Option<real>, meetsBox: RayTest, meetsRay: RayTest)
    : (bool, Option<real>)
    requires MeshesValid(ms)
    reads MeshesRepr(ms)
    decreases |ms|
  {
    if ms == [] then (false, out)
    else
      MeshesPrefix(ms, 1);
      assert ms[0].root.Repr <= MeshesRepr(ms);
      if meetsBox(ms[0].bbox, ray) then
        var (blocked, written) := RayBlocked(ms[0].root, ray, maxt, out, meetsRay);
        if blocked then (true, written) else BlockedMeshes(ms[1..], ray, maxt, written, meetsBox, meetsRay)
      else BlockedMeshes(ms[1..], ray, maxt, out, meetsBox, meetsRay)
  }

  /** The mesh scan blocks exactly when some triangle it can visit is hit within `maxt` and is opaque. */
  lemma {:induction false} BlockedMeshesMeans(ms: seq<TransformedMesh>, ray: Ray, maxt: real, out: Option<real>,
                                              meetsBox: RayTest, meetsRay: RayTest)
    requires MeshesValid(ms)
    ensures BlockedMeshes(ms, ray, maxt, out, meetsBox, meetsRay).0 <==>
              exists i :: 0 <= i < |ms| && meetsBox(ms[i].bbox, ray) && AnyBlocks(Visited(ms[i].root, ray, meetsRay), ray, maxt)
    decreases |ms|
  {
    if ms != [] {
      MeshesPrefix(ms, 1);
      var written := if meetsBox(ms[0].bbox, ray) then RayBlocked(ms[0].root, ray, maxt, out, meetsRay).1 else out;
      BlockedMeshesMeans(ms[1..], ray, maxt, written, meetsBox, meetsRay);
      if meetsBox(ms[0].bbox, ray) {
        RayBlockedMeans(ms[0].root, ray, maxt, out, meetsRay);
      }
      forall i | 1 <= i < |ms| ensures ms[i] == ms[1..][i - 1] { }
      if BlockedMeshes(ms, ray, maxt, out, meetsBox, meetsRay).0 && !(meetsBox(ms[0].bbox, ray) && RayBlocked(ms[0].root, ray, maxt, out, meetsRay).0) {
        var i :| 0 <= i < |ms[1..]| && meetsBox(ms[1..][i].bbox, ray) && AnyBlocks(Visited(ms[1..][i].root, ray, meetsRay), ray, maxt);
        assert ms[1..][i] == ms[i + 1];
      }
    }
  }

  /** `scanBoundingBoxSpaceTreeRayBlocked` as the loop it is, returning at the first block. */
  method ScanBoundingBoxSpaceTreeRayBlocked(ms: seq<TransformedMesh>, ray: Ray, maxt: real, out: Option<real>,
                                            meetsBox: RayTest, meetsRay: RayTest)
    returns (blocked: bool, written: Option<real>)
    requires MeshesValid(ms)
    ensures (blocked, written) == BlockedMeshes(ms, ray, maxt, out, meetsBox, meetsRay)
  {
    written := out;
    var i := 0;
    while i < |ms|
      invariant 0 <= i <= |ms|
      invariant BlockedMeshes(ms, ray, maxt, out, meetsBox, meetsRay) == BlockedMeshes(ms[i..], ray, maxt, written, meetsBox, meetsRay)
    {
      MeshesPrefix(ms, i);
      MeshesPrefix(ms, i + 1);
      assert ms[i..][0] == ms[i] && ms[i..][1..] == ms[i + 1..];
      if meetsBox(ms[i].bbox, ray) {
        var b;
        b, written := ScanSpaceTreeRayBlocked(ms[i].root, ray, maxt, written, meetsRay);
        if b {
          return true, written;
        }
      }
      i := i + 1;
    }
    blocked := false;
  }
}
