// The frustum's visibility queries. The six clipping planes are built from
// floating-point camera data, and the per-plane geometric tests belong to a
// foreign geometry library, so both are parameters here: a plane is of an
// arbitrary type P and each test is a predicate "this plane rejects the shape".

module Frustum {

  /** Result of a visibility query (enumerator values 0, 1 and 2). */
  datatype Intersection = Out | In | Intersect

  /** The six clipping planes of a camera frustum (top, bottom, left, right, near, far). */
  datatype Frustum<P> = Frustum(planes: seq<P>)

  predicate Valid<P>(f: Frustum<P>)
  {
    |f.planes| == 6
  }

  /** An axis-aligned box given by its two corners. */
  datatype Aabb<V> = Aabb(min: V, max: V)

  /** A sphere given by its centre and radius. */
  datatype BoundingSphere<V> = BoundingSphere(center: V, radius: real)

  /** What every plane loop below computes: Out when some plane rejects the shape, In otherwise. */
  function Classify<P, S>(f: Frustum<P>, shape: S, rejects: (P, S) -> bool): Intersection
    requires Valid(f)
  {
    if exists x :: 0 <= x < 6 && rejects(f.planes[x], shape) then Out else In
  }

  /**
   * The common early-exit loop: plane x is tested in order and the first
   * plane that rejects the shape ends the query with Out.
   */
  method PlaneLoop<P, S>(f: Frustum<P>, shape: S, rejects: (P, S) -> bool) returns (r: Intersection)
    requires Valid(f)
    ensures r == In <==> forall x :: 0 <= x < 6 ==> !rejects(f.planes[x], shape)
    ensures r == Out <==> exists x :: 0 <= x < 6 && rejects(f.planes[x], shape)
    ensures r == Classify(f, shape, rejects)
  {
    var x := 0;
    while x < 6
      invariant 0 <= x <= 6
      invariant forall y :: 0 <= y < x ==> !rejects(f.planes[y], shape)
    {
      if rejects(f.planes[x], shape) {
        return Out;
      }
      x := x + 1;
    }
    return In;
  }

  /** Whether a point lies inside the frustum. */
  method CheckPoint<P, V>(f: Frustum<P>, pos: V, testPlanesPoint: (P, V) -> bool) returns (r: Intersection)
    requires Valid(f)
    ensures r == In <==> forall x :: 0 <= x < 6 ==> !testPlanesPoint(f.planes[x], pos)
    ensures r == Out <==> exists x :: 0 <= x < 6 && testPlanesPoint(f.planes[x], pos)
  {
    r := PlaneLoop(f, pos, testPlanesPoint);
  }

  /** Box query on two corners; the tested box is built from them. */
  method IntersectionAabbMinMax<P, V>(f: Frustum<P>, min: V, max: V, testPlanesAabb: (P, Aabb<V>) -> bool)
    returns (r: Intersection)
    requires Valid(f)
    ensures r == In <==> forall x :: 0 <= x < 6 ==> !testPlanesAabb(f.planes[x], Aabb(min, max))
    ensures r == Out <==> exists x :: 0 <= x < 6 && testPlanesAabb(f.planes[x], Aabb(min, max))
  {
    r := PlaneLoop(f, Aabb(min, max), testPlanesAabb);
  }

  /** Box query on a box value: delegates to the two-corner query. */
  method IntersectionAabb<P, V>(f: Frustum<P>, bounds: Aabb<V>, testPlanesAabb: (P, Aabb<V>) -> bool)
    returns (r: Intersection)
    requires Valid(f)
    ensures r == Classify(f, bounds, testPlanesAabb)
    ensures r != Intersect
  {
    r := IntersectionAabbMinMax(f, bounds.min, bounds.max, testPlanesAabb);
  }

  /** Sphere query on a sphere value. */
  method IntersectionSphere<P, V>(f: Frustum<P>, sphere: BoundingSphere<V>,
                                  testPlanesSphere: (P, BoundingSphere<V>) -> bool)
    returns (r: Intersection)
    requires Valid(f)
    ensures r == In <==> forall x :: 0 <= x < 6 ==> !testPlanesSphere(f.planes[x], sphere)
    ensures r == Out <==> exists x :: 0 <= x < 6 && testPlanesSphere(f.planes[x], sphere)
  {
    r := PlaneLoop(f, sphere, testPlanesSphere);
  }

  /** Sphere query on a centre and a radius: delegates to the sphere-value query. */
  method IntersectionSphereAt<P, V>(f: Frustum<P>, pos: V, radius: real,
                                    testPlanesSphere: (P, BoundingSphere<V>) -> bool)
    returns (r: Intersection)
    requires Valid(f)
    ensures r == Classify(f, BoundingSphere(pos, radius), testPlanesSphere)
    ensures r != Intersect
  {
    r := IntersectionSphere(f, BoundingSphere(pos, radius), testPlanesSphere);
  }

  /** Oriented-box queries are unimplemented and report every box as outside. */
  function IntersectionObb<P, V>(f: Frustum<P>, u: V, v: V, w: V): (r: Intersection)
    ensures r == Out
  {
    Out
  }

  /** Plane and frustum-frustum queries are unimplemented and report "inside". */
  function IntersectPlane<P>(f: Frustum<P>, plane: P): (r: Intersection)
    ensures r == In
  {
    In
  }

  function IntersectionFrustum<P>(f: Frustum<P>, other: Frustum<P>): (r: Intersection)
    ensures r == In
  {
    In
  }
}
