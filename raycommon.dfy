// The render triangle of the ray tracer: the plane and UV coefficients cached
// by `precalc`, the ray acceptance rule of `intersectsRay` and the UV
// containment test `containsUVPoint`. Coordinates are reals; the one place
// where IEEE division matters (a ray parallel to the plane) is modelled with
// explicit infinities and NaN.
module RayCommon {
  import opened Base

  function Add(a: Vec3, b: Vec3): Vec3 { Vec3(a.x + b.x, a.y + b.y, a.z + b.z) }
  function Sub(a: Vec3, b: Vec3): Vec3 { Vec3(a.x - b.x, a.y - b.y, a.z - b.z) }
  function Scale(a: Vec3, k: real): Vec3 { Vec3(a.x * k, a.y * k, a.z * k) }
  function Dot(a: Vec3, b: Vec3): real { a.x * b.x + a.y * b.y + a.z * b.z }
  function Cross(a: Vec3, b: Vec3): Vec3
  {
    Vec3(a.y * b.z - a.z * b.y, a.z * b.x - a.x * b.z, a.x * b.y - a.y * b.x)
  }

  function Sub2(a: Vec2, b: Vec2): Vec2 { Vec2(a.x - b.x, a.y - b.y) }
  /** The z component of the cross product of two plane vectors. */
  function Cross2(a: Vec2, b: Vec2): real { a.x * b.y - a.y * b.x }

  datatype Ray = Ray(origin: Vec3, dir: Vec3)

  /** A `float` produced by a division: a finite value, an infinity, or NaN. */
  datatype FloatValue = Finite(value: real) | PosInf | NegInf | NaN

  /**
   * IEEE division. A zero divisor is taken as positive zero, so the sign of an
   * infinite quotient is the sign of the dividend.
   */
  function Divide(n: real, d: real): (r: FloatValue)
    ensures r.Finite? <==> d != 0.0
    ensures r == NaN <==> d == 0.0 && n == 0.0
  {
    if d != 0.0 then Finite(n / d) else if n > 0.0 then PosInf else if n < 0.0 then NegInf else NaN
  }

  /** `q < x`: false for NaN, true for minus infinity. */
  predicate LessThan(q: FloatValue, x: real)
  {
    match q
    case Finite(v) => v < x
    case NegInf => true
    case PosInf => false
    case NaN => false
  }

  /** `q > x`: false for NaN, true for plus infinity. */
  predicate GreaterThan(q: FloatValue, x: real)
  {
    match q
    case Finite(v) => v > x
    case PosInf => true
    case NegInf => false
    case NaN => false
  }

  /** The plane equation `l = (n, w)`: a point p is on the plane when `dot(n, p) + w == 0`. */
  datatype Plane = Plane(n: Vec3, w: real)

  /**
   * The cached triangle facts. `l` is None when `pdlen` is zero: the
   * normalisation then divides by zero and every coefficient is NaN.
   */
  datatype TriangleInfo = TriangleInfo(pd: Vec3, pdlen: real, l: Option<Plane>)

  /** The cached coefficients of the UV triangle (uv4, uv5, uv6). */
  datatype UVTriangleInfo = UVTriangleInfo(a: real, b: real, c: real, d: real, e: real, f: real, area: real)

  /** The corners a render triangle is built from: positions and its second UV set. */
  datatype Corners = Corners(v1: Vec3, v2: Vec3, v3: Vec3, uv4: Vec2, uv5: Vec2, uv6: Vec2)

  datatype RenderTriangle = RenderTriangle(corners: Corners, ti: TriangleInfo, uvt2Info: UVTriangleInfo)

  /** The unnormalised face normal `cross(v2 - v1, v3 - v2)`. */
  function FaceNormal(c: Corners): Vec3
  {
    Cross(Sub(c.v2, c.v1), Sub(c.v3, c.v2))
  }

  /** The UV coefficients `precalc` caches for uv4, uv5, uv6. */
  function UVInfoOf(c: Corners): UVTriangleInfo
  {
    var uv4, uv5, uv6 := c.uv4, c.uv5, c.uv6;
    UVTriangleInfo(
      uv4.y * uv6.x - uv4.x * uv6.y,
      uv6.y - uv4.y,
      uv4.x - uv6.x,
      uv4.x * uv5.y - uv4.y * uv5.x,
      uv4.y - uv5.y,
      uv5.x - uv4.x,
      AreaTerm(uv4.x, uv4.y, uv5.x, uv5.y, uv6.x, uv6.y))
  }

  /**
   * `precalc`. The length of `pd` (a square root) is supplied by the caller;
   * the plane is normalised by it and passes through v1.
   */
  function Precalc(c: Corners, pdlen: real): (r: RenderTriangle)
    requires pdlen >= 0.0 && pdlen * pdlen == Dot(FaceNormal(c), FaceNormal(c))
    ensures r.corners == c && r.ti.pd == FaceNormal(c) && r.ti.pdlen == pdlen && r.uvt2Info == UVInfoOf(c)
    ensures r.ti.l.Some? <==> pdlen != 0.0
    ensures r.ti.l.Some? ==> Dot(r.ti.l.value.n, c.v1) + r.ti.l.value.w == 0.0
  {
    var pd := FaceNormal(c);
    var k := if pdlen == 0.0 then 0.0 else 1.0 / pdlen;
    DotScaled(pd, k, c.v1);
    var l := if pdlen == 0.0 then None else Some(Plane(Scale(pd, k), -Dot(pd, c.v1) * k));
    RenderTriangle(c, TriangleInfo(pd, pdlen, l), UVInfoOf(c))
  }

  lemma SquarePositive(x: real)
    requires x != 0.0
    ensures x * x > 0.0
  {
    if x < 0.0 {
      assert x * x == (-x) * (-x);
    }
  }

  /** Multiplying by a positive number keeps the sign. */
  lemma PositiveFactor(x: real, k: real)
    requires k > 0.0
    ensures x * k > 0.0 <==> x > 0.0
    ensures x * k >= 0.0 <==> x >= 0.0
  {
  }

  /** The distance along the ray to the triangle's plane, as `intersectsRay` divides it. */
  function Distance(rt: RenderTriangle, ray: Ray): FloatValue
  {
    match rt.ti.l
    case None => NaN
    case Some(p) => Divide(-(Dot(p.n, ray.origin) + p.w), Dot(p.n, ray.dir))
  }

  /** The distance test `dist < 0 || isnan(dist) || dist > maxt`. */
  predicate DistanceRejected(dist: FloatValue, maxt: real)
  {
    LessThan(dist, 0.0) || dist.NaN? || GreaterThan(dist, maxt)
  }

  /** `dot(pd, cross(b - a, hit - a))`: which side of the edge from a to b the hit lies on. */
  function EdgeSide(pd: Vec3, a: Vec3, b: Vec3, hit: Vec3): real
  {
    Dot(pd, Cross(Sub(b, a), Sub(hit, a)))
  }

  /** The caller's `t` and `hit` variables, which `intersectsRay` writes through references. */
  datatype HitState = HitState(t: real, hit: Vec3)

  datatype Intersection = Intersection(accepted: bool, out: HitState)

  /**
   * `intersectsRay`: the outputs are written as soon as the distance is
   * accepted, before the three edge tests, so a rejection by an edge test
   * still leaves them overwritten.
   */
  function IntersectsRay(rt: RenderTriangle, ray: Ray, maxt: real, prior: HitState): Intersection
  {
    var dist := Distance(rt, ray);
    if DistanceRejected(dist, maxt) then Intersection(false, prior)
    else
      var t := dist.value;
      var hit := Add(ray.origin, Scale(ray.dir, t));
      var out := HitState(t, hit);
      var c := rt.corners;
      if EdgeSide(rt.ti.pd, c.v1, c.v2, hit) < 0.0 then Intersection(false, out)
      else if EdgeSide(rt.ti.pd, c.v2, c.v3, hit) < 0.0 then Intersection(false, out)
      else if EdgeSide(rt.ti.pd, c.v3, c.v1, hit) < 0.0 then Intersection(false, out)
      else Intersection(true, out)
  }

  /** The distance test lets exactly the finite distances in `[0, maxt]` through. */
  lemma DistanceAcceptedRange(dist: FloatValue, maxt: real)
    ensures !DistanceRejected(dist, maxt) <==> dist.Finite? && 0.0 <= dist.value <= maxt
  {
  }

  /** A ray is accepted exactly when its finite distance lies in `[0, maxt]` and the hit is inside all three edges. */
  lemma IntersectsRayAccepts(rt: RenderTriangle, ray: Ray, maxt: real, prior: HitState)
    ensures var r := IntersectsRay(rt, ray, maxt, prior);
            var dist := Distance(rt, ray);
            r.accepted <==>
              dist.Finite? && 0.0 <= dist.value <= maxt
              && var hit := Add(ray.origin, Scale(ray.dir, dist.value));
                 EdgeSide(rt.ti.pd, rt.corners.v1, rt.corners.v2, hit) >= 0.0
                 && EdgeSide(rt.ti.pd, rt.corners.v2, rt.corners.v3, hit) >= 0.0
                 && EdgeSide(rt.ti.pd, rt.corners.v3, rt.corners.v1, hit) >= 0.0
    ensures var r := IntersectsRay(rt, ray, maxt, prior);
            r.accepted ==> 0.0 <= r.out.t <= maxt && r.out.hit == Add(ray.origin, Scale(ray.dir, r.out.t))
  {
    DistanceAcceptedRange(Distance(rt, ray), maxt);
  }

  /**
   * The outputs: untouched when the distance is rejected, otherwise the
   * distance and the point it reaches, whatever the edge tests decide.
   */
  lemma IntersectsRayOutputs(rt: RenderTriangle, ray: Ray, maxt: real, prior: HitState)
    ensures var r := IntersectsRay(rt, ray, maxt, prior);
            var dist := Distance(rt, ray);
            if DistanceRejected(dist, maxt) then !r.accepted && r.out == prior
            else r.out == HitState(dist.value, Add(ray.origin, Scale(ray.dir, dist.value)))
  {
  }

  /** A triangle whose face normal is zero is never hit: its plane coefficients are NaN. */
  lemma DegenerateTriangleNeverHit(c: Corners, pdlen: real, ray: Ray, maxt: real, prior: HitState)
    requires pdlen >= 0.0 && pdlen * pdlen == Dot(FaceNormal(c), FaceNormal(c))
    requires FaceNormal(c) == Zero3
    ensures IntersectsRay(Precalc(c, pdlen), ray, maxt, prior) == Intersection(false, prior)
  {
  }

  /** A ray parallel to the plane of a proper triangle divides by zero and is never hit. */
  lemma ParallelRayNeverHit(c: Corners, pdlen: real, ray: Ray, maxt: real, prior: HitState)
    requires pdlen >= 0.0 && pdlen * pdlen == Dot(FaceNormal(c), FaceNormal(c))
    requires Dot(FaceNormal(c), ray.dir) == 0.0
    ensures IntersectsRay(Precalc(c, pdlen), ray, maxt, prior) == Intersection(false, prior)
  {
    var rt := Precalc(c, pdlen);
    if rt.ti.l.Some? {
      var p := rt.ti.l.value;
      assert Dot(p.n, ray.dir) == Dot(FaceNormal(c), ray.dir) * (1.0 / pdlen);
    }
  }

  lemma DotScaled(a: Vec3, k: real, b: Vec3)
    ensures Dot(Scale(a, k), b) == Dot(a, b) * k
  {
  }

  /** Moving along the ray changes the plane value linearly. */
  lemma DotAlongRay(n: Vec3, o: Vec3, d: Vec3, t: real)
    ensures Dot(n, Add(o, Scale(d, t))) == Dot(n, o) + t * Dot(n, d)
  {
  }

  /** Whenever the distance is accepted, the point written to `hit` lies on the triangle's plane. */
  lemma {:induction false} HitLiesOnPlane(c: Corners, pdlen: real, ray: Ray, maxt: real, prior: HitState)
    requires pdlen >= 0.0 && pdlen * pdlen == Dot(FaceNormal(c), FaceNormal(c))
    requires !DistanceRejected(Distance(Precalc(c, pdlen), ray), maxt)
    ensures var r := IntersectsRay(Precalc(c, pdlen), ray, maxt, prior);
            Dot(FaceNormal(c), r.out.hit) == Dot(FaceNormal(c), c.v1)
  {
    var rt := Precalc(c, pdlen);
    var pd := FaceNormal(c);
    var p := rt.ti.l.value;
    var k := 1.0 / pdlen;
    var den := Dot(p.n, ray.dir);
    var t := Distance(rt, ray).value;
    assert den != 0.0;
    assert t * den == -(Dot(p.n, ray.origin) + p.w);
    DotScaled(pd, k, ray.dir);
    DotScaled(pd, k, ray.origin);
    assert k > 0.0;
    assert t * Dot(pd, ray.dir) * k == -(Dot(pd, ray.origin) * k - Dot(pd, c.v1) * k);
    assert t * Dot(pd, ray.dir) == Dot(pd, c.v1) - Dot(pd, ray.origin);
    DotAlongRay(pd, ray.origin, ray.dir, t);
  }

  /** The point `v1 + beta (v2 - v1) + gamma (v3 - v1)` of the triangle's plane. */
  function PointAt(c: Corners, beta: real, gamma: real): Vec3
  {
    Add(c.v1, Add(Scale(Sub(c.v2, c.v1), beta), Scale(Sub(c.v3, c.v1), gamma)))
  }

  lemma CrossCombination(e: Vec3, f: Vec3, beta: real, gamma: real)
    ensures Cross(e, Add(Scale(e, beta), Scale(f, gamma))) == Scale(Cross(e, f), gamma)
  {
    CrossAddRight(e, Scale(e, beta), Scale(f, gamma));
    CrossScaleRight(e, e, beta);
    CrossScaleRight(e, f, gamma);
    assert Cross(e, e) == Zero3;
  }

  /** CrossCombination with the roles of the two edges exchanged. */
  lemma CrossCombinationSwapped(e: Vec3, f: Vec3, beta: real, gamma: real)
    ensures Cross(f, Add(Scale(e, beta), Scale(f, gamma))) == Scale(Cross(e, f), -beta)
  {
    CrossAddRight(f, Scale(e, beta), Scale(f, gamma));
    CrossScaleRight(f, e, beta);
    CrossScaleRight(f, f, gamma);
    assert Cross(f, f) == Zero3;
    assert Cross(f, e) == Scale(Cross(e, f), -1.0);
  }

  lemma CrossAddRight(a: Vec3, b: Vec3, c: Vec3)
    ensures Cross(a, Add(b, c)) == Add(Cross(a, b), Cross(a, c))
  {
  }

  lemma CrossScaleRight(a: Vec3, b: Vec3, k: real)
    ensures Cross(a, Scale(b, k)) == Scale(Cross(a, b), k)
  {
    var c := Cross(a, Scale(b, k));
    assert c.x == (a.y * b.z - a.z * b.y) * k by {
      assert a.y * (b.z * k) == (a.y * b.z) * k;
      assert a.z * (b.y * k) == (a.z * b.y) * k;
    }
    assert c.y == (a.z * b.x - a.x * b.z) * k by {
      assert a.z * (b.x * k) == (a.z * b.x) * k;
      assert a.x * (b.z * k) == (a.x * b.z) * k;
    }
    assert c.z == (a.x * b.y - a.y * b.x) * k by {
      assert a.x * (b.y * k) == (a.x * b.y) * k;
      assert a.y * (b.x * k) == (a.y * b.x) * k;
    }
  }

  lemma CrossSubLeft(a: Vec3, b: Vec3, x: Vec3)
    ensures Cross(Sub(a, b), x) == Sub(Cross(a, x), Cross(b, x))
  {
  }

  lemma CrossNegLeft(a: Vec3, x: Vec3)
    ensures Cross(Scale(a, -1.0), x) == Scale(Cross(a, x), -1.0)
  {
  }

  lemma CrossSecondEdge(e: Vec3, f: Vec3, beta: real, gamma: real)
    ensures Cross(Sub(f, e), Add(Scale(e, beta - 1.0), Scale(f, gamma))) == Scale(Cross(e, f), 1.0 - beta - gamma)
  {
    var x := Add(Scale(e, beta - 1.0), Scale(f, gamma));
    CrossSubLeft(f, e, x);
    CrossCombinationSwapped(e, f, beta - 1.0, gamma);
    CrossCombination(e, f, beta - 1.0, gamma);
  }

  lemma CrossThirdEdge(e: Vec3, f: Vec3, beta: real, gamma: real)
    ensures Cross(Scale(f, -1.0), Add(Scale(e, beta), Scale(f, gamma - 1.0))) == Scale(Cross(e, f), beta)
  {
    var x := Add(Scale(e, beta), Scale(f, gamma - 1.0));
    CrossNegLeft(f, x);
    CrossCombinationSwapped(e, f, beta, gamma - 1.0);
  }

  /**
   * The three edge tests at a point given by barycentric weights are the
   * weights `gamma`, `1 - beta - gamma` and `beta`, each times `|pd|^2`.
   */
  lemma EdgeSidesAtPoint(c: Corners, beta: real, gamma: real)
    ensures var pd, hit := FaceNormal(c), PointAt(c, beta, gamma);
            var n := Dot(pd, pd);
            EdgeSide(pd, c.v1, c.v2, hit) == gamma * n
            && EdgeSide(pd, c.v2, c.v3, hit) == (1.0 - beta - gamma) * n
            && EdgeSide(pd, c.v3, c.v1, hit) == beta * n
  {
    EdgeSideFirst(c, beta, gamma);
    EdgeSideSecond(c, beta, gamma);
    EdgeSideThird(c, beta, gamma);
  }

  /** The face normal, taken from the first corner's two edges. */
  lemma FaceNormalAtFirstCorner(c: Corners)
    ensures FaceNormal(c) == Cross(Sub(c.v2, c.v1), Sub(c.v3, c.v1))
  {
  }

  lemma EdgeSideFirst(c: Corners, beta: real, gamma: real)
    ensures EdgeSide(FaceNormal(c), c.v1, c.v2, PointAt(c, beta, gamma)) == gamma * Dot(FaceNormal(c), FaceNormal(c))
  {
    var e, f := Sub(c.v2, c.v1), Sub(c.v3, c.v1);
    var pd := FaceNormal(c);
    FaceNormalAtFirstCorner(c);
    CrossCombination(e, f, beta, gamma);
    assert Sub(PointAt(c, beta, gamma), c.v1) == Add(Scale(e, beta), Scale(f, gamma));
    DotScaled(Cross(e, f), gamma, pd);
  }

  lemma EdgeSideSecond(c: Corners, beta: real, gamma: real)
    ensures EdgeSide(FaceNormal(c), c.v2, c.v3, PointAt(c, beta, gamma)) == (1.0 - beta - gamma) * Dot(FaceNormal(c), FaceNormal(c))
  {
    var e, f := Sub(c.v2, c.v1), Sub(c.v3, c.v1);
    var pd := FaceNormal(c);
    FaceNormalAtFirstCorner(c);
    assert Sub(c.v3, c.v2) == Sub(f, e) && Sub(PointAt(c, beta, gamma), c.v2) == Add(Scale(e, beta - 1.0), Scale(f, gamma));
    CrossSecondEdge(e, f, beta, gamma);
    DotScaled(pd, 1.0 - beta - gamma, pd);
  }

  lemma EdgeSideThird(c: Corners, beta: real, gamma: real)
    ensures EdgeSide(FaceNormal(c), c.v3, c.v1, PointAt(c, beta, gamma)) == beta * Dot(FaceNormal(c), FaceNormal(c))
  {
    var e, f := Sub(c.v2, c.v1), Sub(c.v3, c.v1);
    var pd := FaceNormal(c);
    FaceNormalAtFirstCorner(c);
    assert Sub(c.v1, c.v3) == Scale(f, -1.0) && Sub(PointAt(c, beta, gamma), c.v3) == Add(Scale(e, beta), Scale(f, gamma - 1.0));
    CrossThirdEdge(e, f, beta, gamma);
    DotScaled(pd, beta, pd);
  }

  /**
   * For a proper triangle, a ray whose accepted distance reaches the point
   * with weights (beta, gamma) is accepted exactly when the point is inside
   * the closed triangle.
   */
  lemma {:induction false} AcceptedExactlyInside(c: Corners, pdlen: real, ray: Ray, maxt: real, prior: HitState,
                                                 beta: real, gamma: real)
    requires pdlen >= 0.0 && pdlen * pdlen == Dot(FaceNormal(c), FaceNormal(c))
    requires pdlen > 0.0
    requires !DistanceRejected(Distance(Precalc(c, pdlen), ray), maxt)
    requires IntersectsRay(Precalc(c, pdlen), ray, maxt, prior).out.hit == PointAt(c, beta, gamma)
    ensures IntersectsRay(Precalc(c, pdlen), ray, maxt, prior).accepted
            <==> beta >= 0.0 && gamma >= 0.0 && beta + gamma <= 1.0
  {
    var pd := FaceNormal(c);
    var n := Dot(pd, pd);
    SquarePositive(pdlen);
    EdgeSidesAtPoint(c, beta, gamma);
    IntersectsRayAccepts(Precalc(c, pdlen), ray, maxt, prior);
    PositiveFactor(gamma, n);
    PositiveFactor(beta, n);
    PositiveFactor(1.0 - beta - gamma, n);
  }

  /** `containsUVPoint`. */
  function ContainsUVPoint(info: UVTriangleInfo, uv: Vec2): bool
  {
    var s := info.a + info.b * uv.x + info.c * uv.y;
    var t := info.d + info.e * uv.x + info.f * uv.y;
    if (s < 0.0) != (t < 0.0) then false
    else
      var (s', t', area) := if info.area < 0.0 then (-s, -t, -info.area) else (s, t, info.area);
      s' > 0.0 && t' > 0.0 && s' + t' <= area
  }

  /** The same test without the early exit on opposite signs. */
  function ContainsUVPointDirect(info: UVTriangleInfo, uv: Vec2): bool
  {
    var s := info.a + info.b * uv.x + info.c * uv.y;
    var t := info.d + info.e * uv.x + info.f * uv.y;
    if info.area < 0.0 then -s > 0.0 && -t > 0.0 && -s - t <= -info.area
    else s > 0.0 && t > 0.0 && s + t <= info.area
  }

  /** The early exit on opposite signs never changes the answer. */
  lemma EarlySignExitRedundant(info: UVTriangleInfo, uv: Vec2)
    ensures ContainsUVPoint(info, uv) == ContainsUVPointDirect(info, uv)
  {
  }

  /** The UV point `uv4 + beta (uv5 - uv4) + gamma (uv6 - uv4)`. */
  function UVAt(c: Corners, beta: real, gamma: real): Vec2
  {
    Vec2(c.uv4.x + beta * (c.uv5.x - c.uv4.x) + gamma * (c.uv6.x - c.uv4.x),
         c.uv4.y + beta * (c.uv5.y - c.uv4.y) + gamma * (c.uv6.y - c.uv4.y))
  }

  /**
   * The cached coefficients: `area` is the signed double area of the UV
   * triangle, and the two linear forms `a + b x + c y` and `d + e x + f y`
   * measure a point's weights on uv5 and uv6 in units of that area.
   */
  lemma {:induction false} UVCoefficients(c: Corners, beta: real, gamma: real)
    ensures var info := UVInfoOf(c);
            var uv := UVAt(c, beta, gamma);
            info.area == Cross2(Sub2(c.uv5, c.uv4), Sub2(c.uv6, c.uv4))
            && info.a + info.b * uv.x + info.c * uv.y == beta * info.area
            && info.d + info.e * uv.x + info.f * uv.y == gamma * info.area
  {
    var x4, y4, x5, y5, x6, y6 := c.uv4.x, c.uv4.y, c.uv5.x, c.uv5.y, c.uv6.x, c.uv6.y;
    FirstWeight(x4, y4, x5, y5, x6, y6, beta, gamma);
    SecondWeight(x4, y4, x5, y5, x6, y6, beta, gamma);
  }

  /** The signed double area as `precalc` writes it, and its two vanishing linear forms. */
  function AreaTerm(x4: real, y4: real, x5: real, y5: real, x6: real, y6: real): real
  {
    -y5 * x6 + y4 * (x6 - x5) + x4 * (y5 - y6) + x5 * y6
  }

  lemma FirstWeight(x4: real, y4: real, x5: real, y5: real, x6: real, y6: real, beta: real, gamma: real)
    ensures AreaTerm(x4, y4, x5, y5, x6, y6) == (x5 - x4) * (y6 - y4) - (y5 - y4) * (x6 - x4)
    ensures (y4 * x6 - x4 * y6) + (y6 - y4) * (x4 + beta * (x5 - x4) + gamma * (x6 - x4))
            + (x4 - x6) * (y4 + beta * (y5 - y4) + gamma * (y6 - y4)) == beta * AreaTerm(x4, y4, x5, y5, x6, y6)
  {
  }

  lemma SecondWeight(x4: real, y4: real, x5: real, y5: real, x6: real, y6: real, beta: real, gamma: real)
    ensures (x4 * y5 - y4 * x5) + (y4 - y5) * (x4 + beta * (x5 - x4) + gamma * (x6 - x4))
            + (x5 - x4) * (y4 + beta * (y5 - y4) + gamma * (y6 - y4)) == gamma * AreaTerm(x4, y4, x5, y5, x6, y6)
  {
  }

  /**
   * A UV point with weights (beta, gamma) is contained exactly when the UV
   * triangle is not degenerate and the point lies inside it, excluding the
   * two edges at uv4 but including the edge from uv5 to uv6.
   */
  lemma {:induction false} ContainsUVPointInside(c: Corners, beta: real, gamma: real)
    ensures ContainsUVPoint(UVInfoOf(c), UVAt(c, beta, gamma))
            <==> Cross2(Sub2(c.uv5, c.uv4), Sub2(c.uv6, c.uv4)) != 0.0 && beta > 0.0 && gamma > 0.0 && beta + gamma <= 1.0
  {
    var info := UVInfoOf(c);
    var uv := UVAt(c, beta, gamma);
    UVCoefficients(c, beta, gamma);
    EarlySignExitRedundant(info, uv);
    DirectTestByWeights(info, uv, beta, gamma);
  }

  /** The test without the early exit, once its two linear forms are known to be the weights times the area. */
  lemma DirectTestByWeights(info: UVTriangleInfo, uv: Vec2, beta: real, gamma: real)
    requires info.a + info.b * uv.x + info.c * uv.y == beta * info.area
    requires info.d + info.e * uv.x + info.f * uv.y == gamma * info.area
    ensures ContainsUVPointDirect(info, uv) <==> info.area != 0.0 && beta > 0.0 && gamma > 0.0 && beta + gamma <= 1.0
  {
    var area := info.area;
    if area > 0.0 {
      WeightsInside(beta * area, gamma * area, area, beta, gamma);
    } else if area < 0.0 {
      assert -(beta * area) == beta * -area && -(gamma * area) == gamma * -area;
      WeightsInside(-(beta * area), -(gamma * area), -area, beta, gamma);
    } else {
      assert beta * area == 0.0 && gamma * area == 0.0;
    }
  }

  /** Weights scaled by a positive area lie in the open-closed triangle exactly when the weights do. */
  lemma WeightsInside(s: real, t: real, area: real, beta: real, gamma: real)
    requires area > 0.0 && s == beta * area && t == gamma * area
    ensures (s > 0.0 && t > 0.0 && s + t <= area) <==> (beta > 0.0 && gamma > 0.0 && beta + gamma <= 1.0)
  {
    PositiveFactor(beta, area);
    PositiveFactor(gamma, area);
    PositiveFactor(1.0 - beta - gamma, area);
    assert (1.0 - beta - gamma) * area == area - s - t;
  }
}
