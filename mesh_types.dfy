// Value-level pieces of the mesh layer: edges and their tolerant comparison,
// bounding boxes, and the index-buffer algebra that Mesh.ExtractIndex and
// Mesh.ComposeIndex are specified by.
module MeshTypes {
  import opened Base

  // ---------------------------------------------------------------- edges

  datatype Edge = Edge(v1: Vec3, v2: Vec3)

  /** Tolerance of the vector library's `extremelyClose`. */
  const CloseEpsilon: real := 0.00001

  predicate ExtremelyClose(a: Vec3, b: Vec3)
  {
    Abs(a.x - b.x) < CloseEpsilon && Abs(a.y - b.y) < CloseEpsilon && Abs(a.z - b.z) < CloseEpsilon
  }

  predicate ExtremelyClose2(a: Vec2, b: Vec2)
  {
    Abs(a.x - b.x) < CloseEpsilon && Abs(a.y - b.y) < CloseEpsilon
  }

  /** The same edge traversed in the opposite direction. */
  function Flipped(e: Edge): (r: Edge)
    ensures r.v1 == e.v2 && r.v2 == e.v1
  {
    Edge(e.v2, e.v1)
  }

  /** `Edge::almostSame` on four vertices: the endpoints match in either orientation. */
  predicate AlmostSameVertices(e1v1: Vec3, e1v2: Vec3, e2v1: Vec3, e2v2: Vec3)
  {
    (ExtremelyClose(e1v1, e2v1) && ExtremelyClose(e1v2, e2v2))
    || (ExtremelyClose(e1v1, e2v2) && ExtremelyClose(e1v2, e2v1))
  }

  /** `Edge::almostSame` on four 2D points. */
  predicate AlmostSameVertices2(e1v1: Vec2, e1v2: Vec2, e2v1: Vec2, e2v2: Vec2)
  {
    (ExtremelyClose2(e1v1, e2v1) && ExtremelyClose2(e1v2, e2v2))
    || (ExtremelyClose2(e1v1, e2v2) && ExtremelyClose2(e1v2, e2v1))
  }

  /** `Edge::almostSame(e1, e2)`: insensitive to the orientation of either edge. */
  function AlmostSame(e1: Edge, e2: Edge): (r: bool)
    ensures r == AlmostSameVertices(e1.v2, e1.v1, e2.v1, e2.v2)
    ensures r == AlmostSameVertices(e1.v1, e1.v2, e2.v2, e2.v1)
    ensures r == AlmostSameVertices(e2.v1, e2.v2, e1.v1, e1.v2)
  {
    AlmostSameVertices(e1.v1, e1.v2, e2.v1, e2.v2)
  }

  /** `Edge::almostEqual`: the endpoints match in the given orientation only. */
  function AlmostEqual(e1v1: Vec3, e1v2: Vec3, e2v1: Vec3, e2v2: Vec3): (r: bool)
    ensures r ==> AlmostSameVertices(e1v1, e1v2, e2v1, e2v2)
    ensures r <==> AlmostSameVertices(e1v1, e1v2, e2v1, e2v2) && (ExtremelyClose(e1v1, e2v1) && ExtremelyClose(e1v2, e2v2))
  {
    ExtremelyClose(e1v1, e2v1) && ExtremelyClose(e1v2, e2v2)
  }

  /** `Edge::operator==`: exact and orientation-sensitive. */
  function EdgeEquals(e1: Edge, e2: Edge): (r: bool)
    ensures r <==> e1.v1 == e2.v1 && e1.v2 == e2.v2
  {
    e1 == e2
  }

  /** A reversed edge equals the original only when it is degenerate. */
  lemma FlippedEqualsOnlyWhenDegenerate(e: Edge)
    ensures EdgeEquals(Flipped(e), e) <==> e.v1 == e.v2
  {
  }

  /** Swapping the endpoints of either edge never changes `almostSame`. */
  lemma AlmostSameIgnoresOrientation(e1: Edge, e2: Edge)
    ensures AlmostSame(Flipped(e1), e2) == AlmostSame(e1, e2)
    ensures AlmostSame(e1, Flipped(e2)) == AlmostSame(e1, e2)
    ensures AlmostSame(e2, e1) == AlmostSame(e1, e2)
  {
  }

  /** An exact edge match is in particular an `almostSame` match. */
  lemma EqualEdgesAreAlmostSame(e1: Edge, e2: Edge)
    requires EdgeEquals(e1, e2)
    ensures AlmostSame(e1, e2)
  {
  }

  // ------------------------------------------------------------ edge lists

  /** Position of the first entry of `list` that is `almostSame` as `e`, or -1. */
  function FindAlmostSame(list: seq<Edge>, e: Edge): (r: int)
    ensures -1 <= r < |list|
    ensures r == -1 <==> forall i :: 0 <= i < |list| ==> !AlmostSame(list[i], e)
    ensures r >= 0 ==> AlmostSame(list[r], e) && forall i :: 0 <= i < r ==> !AlmostSame(list[i], e)
  {
    if |list| == 0 then -1
    else if AlmostSame(list[0], e) then 0
    else
      var r := FindAlmostSame(list[1..], e);
      if r < 0 then -1 else r + 1
  }

  /** Appends `e` unless the list already holds an `almostSame` edge. */
  function AddDistinct(list: seq<Edge>, e: Edge): (r: seq<Edge>)
  {
    if FindAlmostSame(list, e) < 0 then list + [e] else list
  }

  /** The three edges `getDistinctEdges` takes from a triangle, in the order it offers them. */
  function TriangleEdges(tri: (Vec3, Vec3, Vec3)): seq<Edge>
  {
    [Edge(tri.0, tri.1), Edge(tri.1, tri.2), Edge(tri.0, tri.2)]
  }

  /** Offers every edge of `es` in turn to `AddDistinct`. */
  function AddAllDistinct(list: seq<Edge>, es: seq<Edge>): (r: seq<Edge>)
    decreases |es|
  {
    if |es| == 0 then list else AddAllDistinct(AddDistinct(list, es[0]), es[1..])
  }

  /** `getDistinctEdges`: the list grown by the edges of every triangle in order. */
  function DistinctEdges(list: seq<Edge>, tris: seq<(Vec3, Vec3, Vec3)>): (r: seq<Edge>)
    decreases |tris|
  {
    if |tris| == 0 then list
    else AddAllDistinct(DistinctEdges(list, tris[..|tris| - 1]), TriangleEdges(tris[|tris| - 1]))
  }

  /** No two entries of the list are `almostSame`. */
  predicate PairwiseApart(list: seq<Edge>)
  {
    forall i, j :: 0 <= i < j < |list| ==> !AlmostSame(list[i], list[j])
  }

  /**
   * What offering edges does: the list only grows at its end, every offered
   * edge ends up with an `almostSame` entry, every new entry is an offered
   * edge, and a list of pairwise apart edges stays so.
   */
  lemma {:induction false} AddAllDistinctSound(list: seq<Edge>, es: seq<Edge>)
    ensures |list| <= |AddAllDistinct(list, es)| && AddAllDistinct(list, es)[..|list|] == list
    ensures forall e :: e in es ==> exists i :: 0 <= i < |AddAllDistinct(list, es)| && AlmostSame(AddAllDistinct(list, es)[i], e)
    ensures forall i :: |list| <= i < |AddAllDistinct(list, es)| ==> AddAllDistinct(list, es)[i] in es
    ensures PairwiseApart(list) ==> PairwiseApart(AddAllDistinct(list, es))
    decreases |es|
  {
    if |es| > 0 {
      var next := AddDistinct(list, es[0]);
      AddAllDistinctSound(next, es[1..]);
      var r := AddAllDistinct(next, es[1..]);
      assert r == AddAllDistinct(list, es);
      assert next[..|list|] == list;
      assert r[..|list|] == r[..|next|][..|list|];
      var k := FindAlmostSame(list, es[0]);
      var w := if k < 0 then |list| else k;
      assert AlmostSame(next[w], es[0]);
      assert r[w] == next[w];
      forall e | e in es ensures exists i :: 0 <= i < |r| && AlmostSame(r[i], e) {
        if e != es[0] {
          assert e in es[1..];
        }
      }
      forall i | |list| <= i < |r| ensures r[i] in es {
        if i < |next| {
          assert k < 0 && i == |list| && r[i] == es[0];
        } else {
          assert r[i] in es[1..];
        }
      }
      if PairwiseApart(list) {
        if k < 0 {
          forall i, j | 0 <= i < j < |next| ensures !AlmostSame(next[i], next[j]) {
            if j == |list| {
              assert next[i] == list[i];
            }
          }
        }
      }
    }
  }

  /**
   * `getDistinctEdges` keeps the caller's list as a prefix, gives every edge of
   * every triangle an `almostSame` entry, adds only triangle edges, and adds no
   * edge `almostSame` as one already present.
   */
  lemma {:induction false} DistinctEdgesSound(list: seq<Edge>, tris: seq<(Vec3, Vec3, Vec3)>)
    ensures |list| <= |DistinctEdges(list, tris)| && DistinctEdges(list, tris)[..|list|] == list
    ensures forall t, e :: 0 <= t < |tris| && e in TriangleEdges(tris[t]) ==>
      exists i :: 0 <= i < |DistinctEdges(list, tris)| && AlmostSame(DistinctEdges(list, tris)[i], e)
    ensures forall i :: |list| <= i < |DistinctEdges(list, tris)| ==>
      exists t :: 0 <= t < |tris| && DistinctEdges(list, tris)[i] in TriangleEdges(tris[t])
    ensures PairwiseApart(list) ==> PairwiseApart(DistinctEdges(list, tris))
    decreases |tris|
  {
    if |tris| > 0 {
      var front := tris[..|tris| - 1];
      var last := tris[|tris| - 1];
      DistinctEdgesSound(list, front);
      var mid := DistinctEdges(list, front);
      AddAllDistinctSound(mid, TriangleEdges(last));
      var r := DistinctEdges(list, tris);
      assert r == AddAllDistinct(mid, TriangleEdges(last));
      assert r[..|list|] == r[..|mid|][..|list|];
      forall t, e | 0 <= t < |tris| && e in TriangleEdges(tris[t])
        ensures exists i :: 0 <= i < |r| && AlmostSame(r[i], e)
      {
        if t < |tris| - 1 {
          assert tris[t] == front[t];
          var i :| 0 <= i < |mid| && AlmostSame(mid[i], e);
          assert r[i] == mid[i];
        }
      }
      forall i | |list| <= i < |r| ensures exists t :: 0 <= t < |tris| && r[i] in TriangleEdges(tris[t]) {
        if i < |mid| {
          assert r[i] == mid[i];
          var t :| 0 <= t < |front| && mid[i] in TriangleEdges(front[t]);
          assert tris[t] == front[t];
        } else {
          assert r[i] in TriangleEdges(tris[|tris| - 1]);
        }
      }
    }
  }

  // --------------------------------------------------------------- normals

  /** Every vector of `a` negated. */
  function Negated(a: seq<Vec3>): (r: seq<Vec3>)
  {
    seq(|a|, i requires 0 <= i < |a| => Neg(a[i]))
  }

  /** Negating a buffer twice gives it back, and negation changes every non-zero vector. */
  lemma NegatedInvolution(a: seq<Vec3>)
    ensures Negated(Negated(a)) == a
    ensures forall i :: 0 <= i < |a| && a[i] != Zero3 ==> Negated(a)[i] != a[i]
  {
  }

  // -------------------------------------------------------- bounding boxes

  datatype BoundingBox = BoundingBox(min: Vec3, max: Vec3)

  /** The default-constructed box of the vector library; its contents are that library's. */
  const DefaultBox: BoundingBox := BoundingBox(Zero3, Zero3)

  predicate InBox(b: BoundingBox, v: Vec3)
  {
    b.min.x <= v.x <= b.max.x && b.min.y <= v.y <= b.max.y && b.min.z <= v.z <= b.max.z
  }

  /** Every point of `vs` lies in `b` and each face of `b` touches some point of `vs`. */
  predicate TightBox(b: BoundingBox, vs: seq<Vec3>)
  {
    (forall i :: 0 <= i < |vs| ==> InBox(b, vs[i]))
    && (exists i :: 0 <= i < |vs| && vs[i].x == b.min.x)
    && (exists i :: 0 <= i < |vs| && vs[i].y == b.min.y)
    && (exists i :: 0 <= i < |vs| && vs[i].z == b.min.z)
    && (exists i :: 0 <= i < |vs| && vs[i].x == b.max.x)
    && (exists i :: 0 <= i < |vs| && vs[i].y == b.max.y)
    && (exists i :: 0 <= i < |vs| && vs[i].z == b.max.z)
  }

  /** The box of a single point. */
  function PointBox(v: Vec3): BoundingBox
  {
    BoundingBox(v, v)
  }

  /** The box grown to take in `v`: each bound moves only when `v` lies beyond it. */
  function Extend(b: BoundingBox, v: Vec3): (r: BoundingBox)
    ensures InBox(r, v)
    ensures InBox(b, v) ==> r == b
  {
    BoundingBox(
      Vec3(Min(b.min.x, v.x), Min(b.min.y, v.y), Min(b.min.z, v.z)),
      Vec3(Max(b.max.x, v.x), Max(b.max.y, v.y), Max(b.max.z, v.z)))
  }

  /** Growing the tight box of `vs` by `v` gives the tight box of `vs + [v]`. */
  lemma ExtendTight(b: BoundingBox, vs: seq<Vec3>, v: Vec3)
    requires TightBox(b, vs)
    ensures TightBox(Extend(b, v), vs + [v])
  {
    var r := Extend(b, v);
    var ws := vs + [v];
    var last := |vs|;
    assert ws[last] == v;
    forall i | 0 <= i < |vs| ensures InBox(r, ws[i]) {
      assert ws[i] == vs[i] && InBox(b, vs[i]);
    }
    var i1 :| 0 <= i1 < |vs| && vs[i1].x == b.min.x;
    var i2 :| 0 <= i2 < |vs| && vs[i2].y == b.min.y;
    var i3 :| 0 <= i3 < |vs| && vs[i3].z == b.min.z;
    var i4 :| 0 <= i4 < |vs| && vs[i4].x == b.max.x;
    var i5 :| 0 <= i5 < |vs| && vs[i5].y == b.max.y;
    var i6 :| 0 <= i6 < |vs| && vs[i6].z == b.max.z;
    assert ws[i1] == vs[i1] && ws[i2] == vs[i2] && ws[i3] == vs[i3];
    assert ws[i4] == vs[i4] && ws[i5] == vs[i5] && ws[i6] == vs[i6];
    assert ws[if r.min.x == v.x then last else i1].x == r.min.x;
    assert ws[if r.min.y == v.y then last else i2].y == r.min.y;
    assert ws[if r.min.z == v.z then last else i3].z == r.min.z;
    assert ws[if r.max.x == v.x then last else i4].x == r.max.x;
    assert ws[if r.max.y == v.y then last else i5].y == r.max.y;
    assert ws[if r.max.z == v.z then last else i6].z == r.max.z;
  }

  /** The box of a non-empty point list: that of its first point, grown by each later one in turn. */
  function PointsBox(vs: seq<Vec3>): BoundingBox
    requires |vs| > 0
    decreases |vs|
  {
    if |vs| == 1 then PointBox(vs[0]) else Extend(PointsBox(vs[..|vs| - 1]), vs[|vs| - 1])
  }

  /** Growing a box point by point gives the tight box of the points. */
  lemma {:induction false} PointsBoxIsTight(vs: seq<Vec3>)
    requires |vs| > 0
    ensures TightBox(PointsBox(vs), vs)
    decreases |vs|
  {
    if |vs| == 1 {
      assert vs[0].x == PointsBox(vs).min.x;
    } else {
      var init, last := vs[..|vs| - 1], vs[|vs| - 1];
      PointsBoxIsTight(init);
      ExtendTight(PointsBox(init), init, last);
      assert init + [last] == vs;
    }
  }

  /** A point set has at most one tight box: `calcBoundingBox` has only one possible answer. */
  lemma TightBoxUnique(b1: BoundingBox, b2: BoundingBox, vs: seq<Vec3>)
    requires TightBox(b1, vs) && TightBox(b2, vs)
    ensures b1 == b2
  {
    var i1 :| 0 <= i1 < |vs| && vs[i1].x == b1.min.x;
    var j1 :| 0 <= j1 < |vs| && vs[j1].x == b2.min.x;
    var i2 :| 0 <= i2 < |vs| && vs[i2].y == b1.min.y;
    var j2 :| 0 <= j2 < |vs| && vs[j2].y == b2.min.y;
    var i3 :| 0 <= i3 < |vs| && vs[i3].z == b1.min.z;
    var j3 :| 0 <= j3 < |vs| && vs[j3].z == b2.min.z;
    var i4 :| 0 <= i4 < |vs| && vs[i4].x == b1.max.x;
    var j4 :| 0 <= j4 < |vs| && vs[j4].x == b2.max.x;
    var i5 :| 0 <= i5 < |vs| && vs[i5].y == b1.max.y;
    var j5 :| 0 <= j5 < |vs| && vs[j5].y == b2.max.y;
    var i6 :| 0 <= i6 < |vs| && vs[i6].z == b1.max.z;
    var j6 :| 0 <= j6 < |vs| && vs[j6].z == b2.max.z;
    assert InBox(b1, vs[j1]) && InBox(b2, vs[i1]) && InBox(b1, vs[j2]) && InBox(b2, vs[i2]);
    assert InBox(b1, vs[j3]) && InBox(b2, vs[i3]) && InBox(b1, vs[j4]) && InBox(b2, vs[i4]);
    assert InBox(b1, vs[j5]) && InBox(b2, vs[i5]) && InBox(b1, vs[j6]) && InBox(b2, vs[i6]);
  }

  datatype GrabBoundary = GrabBoundary(left: real, right: real, top: real, bottom: real, front: real, back: real)

  const NoGrab: GrabBoundary := GrabBoundary(0.0, 0.0, 0.0, 0.0, 0.0, 0.0)

  // ------------------------------------------------- index-buffer algebra

  /** Every entry of `idx` addresses an element of a buffer of length `n`. */
  predicate IndexesBelow(idx: seq<nat>, n: nat)
  {
    forall i :: 0 <= i < |idx| ==> idx[i] < n
  }

  /** Expansion of an indexed buffer: entry `i` is `src[idx[i]]`. */
  function Gather<T>(src: seq<T>, idx: seq<nat>): (r: seq<T>)
    requires IndexesBelow(idx, |src|)
    ensures |r| == |idx|
    ensures forall i :: 0 <= i < |idx| ==> r[i] == src[idx[i]]
  {
    seq(|idx|, i requires 0 <= i < |idx| => src[idx[i]])
  }

  /**
   * Expansion of `sets` consecutive blocks of `n` elements each (the UV sets of
   * a texcoord buffer): block `k` of the result is `Gather` of block `k` of `src`.
   */
  function GatherSets<T>(src: seq<T>, n: nat, sets: nat, idx: seq<nat>): (r: seq<T>)
    requires |src| == n * sets
    requires IndexesBelow(idx, n)
    ensures |r| == |idx| * sets
    decreases sets
  {
    if sets == 0 then []
    else
      assert n * sets == n * (sets - 1) + n;
      assert |idx| * sets == |idx| * (sets - 1) + |idx|;
      GatherSets(src[..n * (sets - 1)], n, sets - 1, idx) + Gather(src[n * (sets - 1)..], idx)
  }

  /** One more block: `GatherSets` over `sets + 1` blocks appends the expansion of the last block. */
  lemma GatherSetsSnoc<T>(src: seq<T>, n: nat, sets: nat, idx: seq<nat>)
    requires |src| == n * (sets + 1) && IndexesBelow(idx, n)
    ensures n * sets + n == |src| && |src[..n * sets]| == n * sets
    ensures GatherSets(src, n, sets + 1, idx)
         == GatherSets(src[..n * sets], n, sets, idx) + Gather(src[n * sets..], idx)
  {
    MulSucc(n, sets);
  }

  lemma PrefixSplits<T>(s: seq<T>, a: nat, b: nat)
    requires a <= b <= |s|
    ensures s[..b] == s[..a] + s[a..b]
    ensures s[..b][..a] == s[..a] && s[..b][a..] == s[a..b]
  {
  }

  /** The expansion of `k + 1` blocks is that of the first `k` followed by that of block `k`. */
  lemma GatherSetsGrow<T>(src: seq<T>, n: nat, k: nat, idx: seq<nat>)
    requires IndexesBelow(idx, n)
    requires n * k + n <= |src|
    ensures n * (k + 1) <= |src|
    ensures GatherSets(src[..n * (k + 1)], n, k + 1, idx)
         == GatherSets(src[..n * k], n, k, idx) + Gather(src[n * k..n * k + n], idx)
  {
    MulSucc(n, k);
    var front := src[..n * (k + 1)];
    GatherSetsSnoc(front, n, k, idx);
    assert front[..n * k] == src[..n * k];
    assert front[n * k..] == src[n * k..n * k + n];
  }

  /** Element `i` of block `k` of `GatherSets` is element `idx[i]` of block `k` of the source. */
  lemma {:induction false} GatherSetsEntry<T>(src: seq<T>, n: nat, sets: nat, idx: seq<nat>, k: nat, i: nat)
    requires |src| == n * sets
    requires IndexesBelow(idx, n)
    requires k < sets && i < |idx|
    ensures |idx| * k + i < |idx| * sets && n * k + idx[i] < n * sets
    ensures GatherSets(src, n, sets, idx)[|idx| * k + i] == src[n * k + idx[i]]
    decreases sets
  {
    BlockBound(|idx|, k, i, sets);
    BlockBound(n, k, idx[i], sets);
    var m := sets - 1;
    GatherSetsSnoc(src, n, m, idx);
    var front := src[..n * m];
    var head, tail := GatherSets(front, n, m, idx), Gather(src[n * m..], idx);
    assert GatherSets(src, n, sets, idx) == head + tail;
    if k == m {
      assert GatherSets(src, n, sets, idx)[|idx| * k + i] == tail[i];
    } else {
      BlockBound(|idx|, k, i, m);
      GatherSetsEntry(front, n, m, idx, k, i);
      assert GatherSets(src, n, sets, idx)[|idx| * k + i] == head[|idx| * k + i];
    }
  }

  /** Block `k < s` of `m`-element blocks ends inside the first `m*s` elements. */
  lemma BlockBound(m: nat, k: nat, i: nat, s: nat)
    requires k < s && i < m
    ensures m * k + i < m * s
  {
    assert m * k + i < m * k + m == m * (k + 1);
    assert m * (k + 1) <= m * s by { MulMonotone(m, k + 1, s); }
  }

  lemma MulMonotone(n: nat, a: nat, b: nat)
    requires a <= b
    ensures n * a <= n * b
  {
  }

  /** Position of the first occurrence of `key` in `s`, or `|s|` when absent. */
  function IndexOf<K(==)>(s: seq<K>, key: K): (r: nat)
    ensures r <= |s|
    ensures r < |s| ==> s[r] == key && forall j :: 0 <= j < r ==> s[j] != key
    ensures r == |s| ==> key !in s
  {
    if |s| == 0 then 0
    else if s[0] == key then 0
    else 1 + IndexOf(s[1..], key)
  }

  predicate NoDuplicates<K(==)>(s: seq<K>)
  {
    forall i, j :: 0 <= i < j < |s| ==> s[i] != s[j]
  }

  /**
   * Index composition: the distinct keys in order of first occurrence, and for
   * every input position the position of its key among them.
   */
  function Dedup<K(==)>(keys: seq<K>): (r: (seq<K>, seq<nat>))
    ensures |r.1| == |keys|
    ensures |r.0| <= |keys|
    ensures IndexesBelow(r.1, |r.0|)
    decreases |keys|
  {
    if |keys| == 0 then ([], [])
    else
      var prev := Dedup(keys[..|keys| - 1]);
      var key := keys[|keys| - 1];
      var j := IndexOf(prev.0, key);
      if j < |prev.0| then (prev.0, prev.1 + [j])
      else (prev.0 + [key], prev.1 + [|prev.0|])
  }

  /**
   * What `Dedup` computes: every position's index leads back to its own key,
   * the kept keys are distinct, and each of them comes from the input.
   */
  lemma {:induction false} DedupSound<K>(keys: seq<K>)
    ensures forall i :: 0 <= i < |keys| ==> Dedup(keys).0[Dedup(keys).1[i]] == keys[i]
    ensures NoDuplicates(Dedup(keys).0)
    ensures forall j :: 0 <= j < |Dedup(keys).0| ==> Dedup(keys).0[j] in keys
    decreases |keys|
  {
    if |keys| > 0 {
      var front := keys[..|keys| - 1];
      DedupSound(front);
      var prev := Dedup(front);
      var key := keys[|keys| - 1];
      var j := IndexOf(prev.0, key);
      var r := Dedup(keys);
      assert forall i :: 0 <= i < |front| ==> keys[i] == front[i];
      if j < |prev.0| {
        assert r == (prev.0, prev.1 + [j]);
      } else {
        assert r == (prev.0 + [key], prev.1 + [|prev.0|]);
        assert key !in prev.0;
      }
      forall x | 0 <= x < |r.0| ensures r.0[x] in keys {
        if x < |prev.0| {
          assert prev.0[x] in front;
        }
      }
    }
  }

  /** Applies `f` to every element. */
  function Project<K, T>(s: seq<K>, f: K -> T): (r: seq<T>)
    ensures |r| == |s|
    ensures forall i :: 0 <= i < |s| ==> r[i] == f(s[i])
  {
    seq(|s|, i requires 0 <= i < |s| => f(s[i]))
  }

  /**
   * Expanding the composed index restores every attribute that is part of the
   * key: composing and then extracting is the identity on `Project(keys, f)`.
   */
  lemma {:induction false} ExpandDedupRestores<K, T>(keys: seq<K>, f: K -> T)
    ensures IndexesBelow(Dedup(keys).1, |Project(Dedup(keys).0, f)|)
    ensures Gather(Project(Dedup(keys).0, f), Dedup(keys).1) == Project(keys, f)
  {
    var d := Dedup(keys);
    DedupSound(keys);
    var g := Gather(Project(d.0, f), d.1);
    assert forall i :: 0 <= i < |keys| ==> g[i] == f(d.0[d.1[i]]) == f(keys[i]);
  }

  /** Truncating every composed index to 16 bits changes nothing while at most 65536 keys are distinct. */
  lemma {:induction false} TruncatedIndexesUnchanged(idx: seq<nat>, n: nat)
    requires IndexesBelow(idx, n) && n <= U16Range
    ensures Project(idx, ToU16) == idx
  {
    var p := Project(idx, ToU16);
    assert forall i :: 0 <= i < |idx| ==> p[i] == idx[i];
  }

  /**
   * The round trip of index composition with 16-bit indexes: while at most
   * 65536 keys are distinct, expanding the distinct keys through the truncated
   * indexes gives every key's attribute back.
   */
  lemma ComposeExpandRoundTrip<K, T>(keys: seq<K>, f: K -> T)
    requires |Dedup(keys).0| <= U16Range
    ensures IndexesBelow(Project(Dedup(keys).1, ToU16), |Project(Dedup(keys).0, f)|)
    ensures Gather(Project(Dedup(keys).0, f), Project(Dedup(keys).1, ToU16)) == Project(keys, f)
  {
    TruncatedIndexesUnchanged(Dedup(keys).1, |Dedup(keys).0|);
    ExpandDedupRestores(keys, f);
  }

  // -------------------------------------------- triangle corner rewriting

  /** The three vertex slots used by one triangle. */
  datatype Corners = Corners(c1: nat, c2: nat, c3: nat)

  predicate CornersBelow(c: Corners, n: nat)
  {
    c.c1 < n && c.c2 < n && c.c3 < n
  }

  /** The three slots are pairwise different. */
  predicate DistinctCorners(c: Corners)
  {
    c.c1 != c.c2 && c.c1 != c.c3 && c.c2 != c.c3
  }

  function CornerSet(c: Corners): set<nat>
  {
    {c.c1, c.c2, c.c3}
  }

  /** The same corners moved into UV set block starting at `offset`. */
  function Shift(c: Corners, offset: nat): (r: Corners)
    ensures CornerSet(r) == set x | x in CornerSet(c) :: x + offset
  {
    Corners(c.c1 + offset, c.c2 + offset, c.c3 + offset)
  }

  /** Corners of non-indexed triangle `t`: `(ushort)t*3`, then `+1` and `+2`, each kept in 16 bits. */
  function UnindexedCorners(t: nat): Corners
  {
    Corners(ToU16(3 * t), ToU16(3 * t + 1), ToU16(3 * t + 2))
  }

  /** The corners of the first `n` triangles of a mesh without an index buffer. */
  function UnindexedCornerList(n: nat): (r: seq<Corners>)
    ensures |r| == n
    ensures forall t :: 0 <= t < n ==> r[t] == UnindexedCorners(t)
  {
    seq(n, t requires 0 <= t < n => UnindexedCorners(t))
  }

  /** While `3n` slots fit in 16-bit indexes, the triangles of an unindexed mesh share no slot. */
  lemma UnindexedCornersDisjoint(n: nat)
    requires 3 * n <= U16Range
    ensures DisjointCorners(UnindexedCornerList(n))
  {
    var cs := UnindexedCornerList(n);
    forall m | 0 <= m < n
      ensures cs[m] == Corners(3 * m, 3 * m + 1, 3 * m + 2)
    {
    }
    forall m | 0 <= m < n ensures |CornerSet(cs[m])| == 3 {
      assert CornerSet(cs[m]) == {3 * m, 3 * m + 1, 3 * m + 2};
    }
  }

  /**
   * The writes `inversePolygonVertexOrder` performs for one triangle: it reads the
   * three corners, then writes them back with the second and third exchanged.
   */
  function SwapCorners<T>(a: seq<T>, c: Corners): (r: seq<T>)
    requires CornersBelow(c, |a|)
    ensures |r| == |a|
  {
    var v1 := a[c.c1];
    var v2 := a[c.c2];
    var v3 := a[c.c3];
    a[c.c1 := v1][c.c2 := v3][c.c3 := v2]
  }

  /** `SwapCorners` applied to the triangles of `cs` in order. */
  function SwapAll<T>(a: seq<T>, cs: seq<Corners>): (r: seq<T>)
    requires forall m :: 0 <= m < |cs| ==> CornersBelow(cs[m], |a|)
    ensures |r| == |a|
    decreases |cs|
  {
    if |cs| == 0 then a
    else SwapCorners(SwapAll(a, cs[..|cs| - 1]), cs[|cs| - 1])
  }

  /** No slot is shared, within a triangle or between two triangles. */
  predicate DisjointCorners(cs: seq<Corners>)
  {
    (forall m :: 0 <= m < |cs| ==> |CornerSet(cs[m])| == 3)
    && (forall m, m' :: 0 <= m < m' < |cs| ==> CornerSet(cs[m]) !! CornerSet(cs[m']))
  }

  /** No triangle of `cs` writes slot `j` with a new value. */
  predicate Untouched(cs: seq<Corners>, j: nat)
  {
    forall m :: 0 <= m < |cs| ==> j != cs[m].c2 && j != cs[m].c3
  }

  /** On triangles that share no slot, every second and third corner is exchanged and nothing else moves. */
  lemma {:induction false} SwapAllDisjoint<T>(a: seq<T>, cs: seq<Corners>)
    requires forall m :: 0 <= m < |cs| ==> CornersBelow(cs[m], |a|)
    requires DisjointCorners(cs)
    ensures forall m :: 0 <= m < |cs| ==>
      SwapAll(a, cs)[cs[m].c1] == a[cs[m].c1]
      && SwapAll(a, cs)[cs[m].c2] == a[cs[m].c3]
      && SwapAll(a, cs)[cs[m].c3] == a[cs[m].c2]
    ensures forall j :: 0 <= j < |a| && Untouched(cs, j) ==> SwapAll(a, cs)[j] == a[j]
    decreases |cs|
  {
    if |cs| > 0 {
      var init := cs[..|cs| - 1];
      var c := cs[|cs| - 1];
      assert DisjointCorners(init) by {
        forall m | 0 <= m < |init| ensures |CornerSet(init[m])| == 3 { assert init[m] == cs[m]; }
        forall m, m' | 0 <= m < m' < |init| ensures CornerSet(init[m]) !! CornerSet(init[m']) {
          assert init[m] == cs[m] && init[m'] == cs[m'];
        }
      }
      SwapAllDisjoint(a, init);
      var prev := SwapAll(a, init);
      assert |CornerSet(c)| == 3;
      assert c.c1 != c.c2 && c.c1 != c.c3 && c.c2 != c.c3;
      forall m | 0 <= m < |init|
        ensures CornerSet(init[m]) !! CornerSet(c)
      {
        assert init[m] == cs[m];
      }
      forall j | 0 <= j < |a| && j != c.c2 && j != c.c3 && Untouched(init, j)
        ensures prev[j] == a[j]
      {
      }
      assert Untouched(init, c.c2) && Untouched(init, c.c3) && Untouched(init, c.c1) by {
        forall m | 0 <= m < |init|
          ensures c.c1 != init[m].c2 && c.c1 != init[m].c3
          ensures c.c2 != init[m].c2 && c.c2 != init[m].c3
          ensures c.c3 != init[m].c2 && c.c3 != init[m].c3
        {
          assert CornerSet(init[m]) !! CornerSet(c);
        }
      }
      forall j | 0 <= j < |a| && Untouched(cs, j)
        ensures SwapAll(a, cs)[j] == a[j]
      {
        assert Untouched(init, j) by {
          forall m | 0 <= m < |init| ensures j != init[m].c2 && j != init[m].c3 { assert init[m] == cs[m]; }
        }
        assert j != c.c2 && j != c.c3 by { assert cs[|cs| - 1] == c; }
      }
      forall m | 0 <= m < |cs|
        ensures SwapAll(a, cs)[cs[m].c1] == a[cs[m].c1]
        ensures SwapAll(a, cs)[cs[m].c2] == a[cs[m].c3]
        ensures SwapAll(a, cs)[cs[m].c3] == a[cs[m].c2]
      {
        if m < |cs| - 1 {
          assert cs[m] == init[m];
          assert CornerSet(init[m]) !! CornerSet(c);
        }
      }
    }
  }

  /** Rewinding the same disjoint triangles twice restores the buffer. */
  lemma {:induction false} SwapAllInvolution<T>(a: seq<T>, cs: seq<Corners>)
    requires forall m :: 0 <= m < |cs| ==> CornersBelow(cs[m], |a|)
    requires DisjointCorners(cs)
    ensures SwapAll(SwapAll(a, cs), cs) == a
  {
    var once := SwapAll(a, cs);
    SwapAllDisjoint(a, cs);
    SwapAllDisjoint(once, cs);
    var twice := SwapAll(once, cs);
    forall j | 0 <= j < |a|
      ensures twice[j] == a[j]
    {
      if !Untouched(cs, j) {
        var m :| 0 <= m < |cs| && (j == cs[m].c2 || j == cs[m].c3);
      }
    }
  }

  // ------------------------------------------------------- UV set blocks

  /** The `n` elements of `buf` starting at `off`. */
  function Slice<T>(buf: seq<T>, off: nat, n: nat): (r: seq<T>)
    requires off + n <= |buf|
    ensures |r| == n
  {
    buf[off .. off + n]
  }

  /** UV set `k` of a buffer whose sets hold `n` elements each. */
  function Block<T>(buf: seq<T>, n: nat, k: nat): (r: seq<T>)
    requires n * k + n <= |buf|
    ensures |r| == n
  {
    Slice(buf, n * k, n)
  }

  lemma MulSucc(n: nat, m: nat)
    ensures n * (m + 1) == n * m + n
  {
  }

  /** Block `k` of a buffer of `sets` blocks lies inside the buffer. */
  lemma BlockInside(n: nat, k: nat, sets: nat)
    requires k < sets
    ensures n * k + n <= n * sets
  {
    MulSucc(n, k);
    MulMonotone(n, k + 1, sets);
  }

  /** Distinct blocks do not overlap. */
  lemma BlocksSeparate(n: nat, j: nat, k: nat)
    requires j != k
    ensures n * j + n <= n * k || n * k + n <= n * j
  {
    if j < k { BlockInside(n, j, k); } else { BlockInside(n, k, j); }
  }

  /**
   * Rewinding a triangle inside the slice at `off` rewinds that slice and leaves
   * every slice that does not overlap it unchanged.
   */
  lemma {:induction false} SwapCornersInSlice<T>(buf: seq<T>, off: nat, n: nat, c: Corners)
    requires off + n <= |buf| && CornersBelow(c, n)
    ensures CornersBelow(Shift(c, off), |buf|)
    ensures Slice(SwapCorners(buf, Shift(c, off)), off, n) == SwapCorners(Slice(buf, off, n), c)
    ensures forall off': nat :: off' + n <= |buf| && (off' + n <= off || off + n <= off') ==>
      Slice(SwapCorners(buf, Shift(c, off)), off', n) == Slice(buf, off', n)
  {
    var after := SwapCorners(buf, Shift(c, off));
    var blk := Slice(buf, off, n);
    assert blk[c.c1] == buf[off + c.c1] && blk[c.c2] == buf[off + c.c2] && blk[c.c3] == buf[off + c.c3];
    assert Slice(after, off, n) == SwapCorners(blk, c) by {
      forall x | 0 <= x < n ensures after[off + x] == SwapCorners(blk, c)[x] {
        assert blk[x] == buf[off + x];
      }
    }
  }

  /** Rewinding a triangle inside UV set `k` rewinds that set and no other. */
  lemma SwapCornersInBlock<T>(buf: seq<T>, n: nat, sets: nat, k: nat, c: Corners)
    requires |buf| == n * sets && k < sets && CornersBelow(c, n)
    ensures CornersBelow(Shift(c, n * k), |buf|)
    ensures n * k + n <= |buf|
    ensures Block(SwapCorners(buf, Shift(c, n * k)), n, k) == SwapCorners(Block(buf, n, k), c)
  {
    BlockInside(n, k, sets);
    SwapCornersInSlice(buf, n * k, n, c);
  }

  /** Rewinding a triangle of block `k` leaves every other block as it was. */
  lemma SwapCornersBesideBlock<T>(buf: seq<T>, n: nat, sets: nat, k: nat, c: Corners, j: nat)
    requires |buf| == n * sets && k < sets && j < sets && j != k && CornersBelow(c, n)
    ensures CornersBelow(Shift(c, n * k), |buf|)
    ensures n * j + n <= |buf|
    ensures Block(SwapCorners(buf, Shift(c, n * k)), n, j) == Block(buf, n, j)
  {
    BlockInside(n, k, sets);
    SwapCornersInSlice(buf, n * k, n, c);
    BlockInside(n, j, sets);
    BlocksSeparate(n, j, k);
  }

  /** A buffer of `sets` blocks is determined by its blocks. */
  lemma {:induction false} BlocksDetermineBuffer<T>(a: seq<T>, b: seq<T>, n: nat, sets: nat)
    requires |a| == n * sets && |b| == n * sets
    requires forall k :: 0 <= k < sets ==> n * k + n <= n * sets && Block(a, n, k) == Block(b, n, k)
    ensures a == b
    decreases sets
  {
    if sets > 0 {
      var k := sets - 1;
      var o := n * k;
      MulSucc(n, k);
      assert o + n == |a|;
      assert Block(a, n, k) == Block(b, n, k);
      var a', b' := a[..o], b[..o];
      forall j | 0 <= j < k
        ensures n * j + n <= n * k && Block(a', n, j) == Block(b', n, j)
      {
        BlockInside(n, j, k);
        assert Block(a, n, j) == Block(b, n, j);
        assert Block(a', n, j) == Block(a, n, j);
        assert Block(b', n, j) == Block(b, n, j);
      }
      BlocksDetermineBuffer(a', b', n, k);
      assert a == a' + Slice(a, o, n);
      assert b == b' + Slice(b, o, n);
    }
  }

  /**
   * Rewinding one triangle in UV sets `0 .. k-1` in turn, each set holding `n`
   * texcoords: the triangle's corners moved to offset `n*j` for set `j`.
   */
  function SwapInSets<T>(buf: seq<T>, n: nat, k: nat, c: Corners): (r: seq<T>)
    requires n * k <= |buf| && CornersBelow(c, n)
    ensures |r| == |buf|
    decreases k
  {
    if k == 0 then buf
    else
      MulSucc(n, k - 1);
      SwapCorners(SwapInSets(buf, n, k - 1, c), Shift(c, n * (k - 1)))
  }

  /** One more set: `SwapInSets` for `k + 1` sets rewinds set `k` after the first `k`. */
  lemma SwapInSetsStep<T>(buf: seq<T>, n: nat, k: nat, c: Corners)
    requires n * (k + 1) <= |buf| && CornersBelow(c, n)
    ensures n * k <= |buf| && CornersBelow(Shift(c, n * k), |buf|)
    ensures SwapInSets(buf, n, k + 1, c) == SwapCorners(SwapInSets(buf, n, k, c), Shift(c, n * k))
  {
    MulSucc(n, k);
  }

  /** `SwapInSets` over all `sets` UV sets, for the triangles of `cs` in order. */
  function SwapAllInSets<T>(buf: seq<T>, n: nat, sets: nat, cs: seq<Corners>): (r: seq<T>)
    requires |buf| == n * sets
    requires forall m :: 0 <= m < |cs| ==> CornersBelow(cs[m], n)
    ensures |r| == |buf|
    decreases |cs|
  {
    if |cs| == 0 then buf
    else SwapInSets(SwapAllInSets(buf, n, sets, cs[..|cs| - 1]), n, sets, cs[|cs| - 1])
  }

  /** After rewinding a triangle in the first `k` sets, those sets are rewound and the others are as they were. */
  lemma {:induction false} SwapInSetsBlocks<T>(buf: seq<T>, n: nat, sets: nat, k: nat, c: Corners, j: nat)
    requires |buf| == n * sets && k <= sets && j < sets && CornersBelow(c, n)
    ensures n * k <= |buf| && n * j + n <= |buf|
    ensures Block(SwapInSets(buf, n, k, c), n, j) == if j < k then SwapCorners(Block(buf, n, j), c) else Block(buf, n, j)
    decreases k
  {
    MulMonotone(n, k, sets);
    BlockInside(n, j, sets);
    if k > 0 {
      var prev := SwapInSets(buf, n, k - 1, c);
      SwapInSetsStep(buf, n, k - 1, c);
      SwapInSetsBlocks(buf, n, sets, k - 1, c, j);
      if j == k - 1 {
        SwapCornersInBlock(prev, n, sets, k - 1, c);
      } else {
        SwapCornersBesideBlock(prev, n, sets, k - 1, c, j);
      }
    }
  }

  /** Rewinding every triangle in every set rewinds each set on its own. */
  lemma {:induction false} SwapAllInSetsBlocks<T>(buf: seq<T>, n: nat, sets: nat, cs: seq<Corners>, j: nat)
    requires |buf| == n * sets && j < sets
    requires forall m :: 0 <= m < |cs| ==> CornersBelow(cs[m], n)
    ensures n * j + n <= |buf|
    ensures Block(SwapAllInSets(buf, n, sets, cs), n, j) == SwapAll(Block(buf, n, j), cs)
    decreases |cs|
  {
    BlockInside(n, j, sets);
    if |cs| > 0 {
      var init := cs[..|cs| - 1];
      SwapAllInSetsBlocks(buf, n, sets, init, j);
      SwapInSetsBlocks(SwapAllInSets(buf, n, sets, init), n, sets, sets, cs[|cs| - 1], j);
    }
  }

  /** On triangles that share no slot, rewinding every UV set twice restores the texcoords. */
  lemma {:induction false} SwapAllInSetsInvolution<T>(buf: seq<T>, n: nat, sets: nat, cs: seq<Corners>)
    requires |buf| == n * sets
    requires forall m :: 0 <= m < |cs| ==> CornersBelow(cs[m], n)
    requires DisjointCorners(cs)
    ensures SwapAllInSets(SwapAllInSets(buf, n, sets, cs), n, sets, cs) == buf
  {
    var once := SwapAllInSets(buf, n, sets, cs);
    var twice := SwapAllInSets(once, n, sets, cs);
    forall k | 0 <= k < sets
      ensures n * k + n <= n * sets && Block(twice, n, k) == Block(buf, n, k)
    {
      SwapAllInSetsBlocks(once, n, sets, cs, k);
      SwapAllInSetsBlocks(buf, n, sets, cs, k);
      SwapAllInvolution(Block(buf, n, k), cs);
    }
    BlocksDetermineBuffer(twice, buf, n, sets);
  }
}
