/** Picking by click: the first triangle whose transformed bounding box contains
    the click, and the vertex of a triangle nearest to the cursor. */
module HitTest {
  import opened Geometry
  import opened Scene

  /** Eigen's `AlignedBox3d`, grown by three points, contains (x, y, 0). Both
      bounds are inclusive; the box is that of the corners, not the triangle. */
  predicate BoxContains(a: Vec4, b: Vec4, c: Vec4, x: real, y: real): (r: bool)
    ensures r <==>
      && (a.x <= x || b.x <= x || c.x <= x) && (x <= a.x || x <= b.x || x <= c.x)
      && (a.y <= y || b.y <= y || c.y <= y) && (y <= a.y || y <= b.y || y <= c.y)
      && (a.z <= 0.0 || b.z <= 0.0 || c.z <= 0.0) && (0.0 <= a.z || 0.0 <= b.z || 0.0 <= c.z)
  {
    && Min3(a.x, b.x, c.x) <= x <= Max3(a.x, b.x, c.x)
    && Min3(a.y, b.y, c.y) <= y <= Max3(a.y, b.y, c.y)
    && Min3(a.z, b.z, c.z) <= 0.0 <= Max3(a.z, b.z, c.z)
  }

  /** The triangle starting at `i`, seen through the composed transform, boxes the click. */
  predicate TriangleHit(tris: seq<Vertex>, u: Uniform, i: int, x: real, y: real)
    requires 0 <= i && i + 2 < |tris|
  {
    BoxContains(Transformed(u, tris[i].position), Transformed(u, tris[i + 1].position),
                Transformed(u, tris[i + 2].position), x, y)
  }

  /** The first triangle at `i`, `i + 3`, ... whose box contains the click, or -1. */
  function FirstHitFrom(tris: seq<Vertex>, u: Uniform, x: real, y: real, i: nat): (r: int)
    decreases |tris| - i
    ensures r == -1 || (i <= r && r + 2 < |tris| && (r - i) % 3 == 0 && TriangleHit(tris, u, r, x, y))
    ensures forall j :: i <= j && j + 2 < |tris| && (j - i) % 3 == 0 && (r == -1 || j < r) ==>
      !TriangleHit(tris, u, j, x, y)
  {
    if i + 2 < |tris| then
      if TriangleHit(tris, u, i, x, y) then i else FirstHitFrom(tris, u, x, y, i + 3)
    else
      -1
  }

  /** `getSelectedTriangleIndex`: scans the list in steps of three and stops at the
      first triangle whose box contains the click. The result is -1 exactly when no
      triangle's box does; otherwise it is the start of a whole triangle that is hit
      and every earlier triangle is missed. */
  method GetSelectedTriangleIndex(tris: seq<Vertex>, u: Uniform, x: real, y: real) returns (index: int)
    ensures index == FirstHitFrom(tris, u, x, y, 0)
    ensures index == -1 || (index % 3 == 0 && index + 2 < |tris| && TriangleHit(tris, u, index, x, y))
    ensures forall j :: 0 <= j && j + 2 < |tris| && j % 3 == 0 && (index == -1 || j < index) ==>
      !TriangleHit(tris, u, j, x, y)
  {
    var i := 0;
    while i + 2 < |tris|
      invariant i % 3 == 0
      invariant FirstHitFrom(tris, u, x, y, i) == FirstHitFrom(tris, u, x, y, 0)
      decreases |tris| - i
    {
      var v1 := Transformed(u, tris[i].position);
      var v2 := Transformed(u, tris[i + 1].position);
      var v3 := Transformed(u, tris[i + 2].position);
      if BoxContains(v1, v2, v3, x, y) {
        return i;
      }
      i := i + 3;
    }
    return -1;
  }

  /** Clicking at the centroid of a triangle's transformed corners always selects
      that triangle or an earlier one: the box of three points holds their centroid. */
  lemma CentroidClickSelects(tris: seq<Vertex>, u: Uniform, i: int)
    requires 0 <= i && i + 2 < |tris| && i % 3 == 0
    requires PlanarUniform(u)
    requires IsPlanarPoint(tris[i].position) && IsPlanarPoint(tris[i + 1].position) && IsPlanarPoint(tris[i + 2].position)
    ensures var g := Barycenter(Transformed(u, tris[i].position), Transformed(u, tris[i + 1].position),
                                Transformed(u, tris[i + 2].position));
            0 <= FirstHitFrom(tris, u, g.x, g.y, 0) <= i
  {
    var g := Barycenter(Transformed(u, tris[i].position), Transformed(u, tris[i + 1].position),
                        Transformed(u, tris[i + 2].position));
    BarycenterInBox(Transformed(u, tris[i].position), Transformed(u, tris[i + 1].position),
                    Transformed(u, tris[i + 2].position));
    assert TriangleHit(tris, u, i, g.x, g.y);
  }

  /** The triangle of the worked example below, as the commit stores it. */
  function ExampleTriangle(): (r: seq<Vertex>)
    ensures |r| == 3
    ensures r[0].position == Vec4(-0.5, -0.5, 0.0, 1.0)
    ensures r[1].position == Vec4(0.5, -0.5, 0.0, 1.0)
    ensures r[2].position == Vec4(0.0, 0.5, 0.0, 1.0)
  {
    CommitTriangle([PointVertex(-0.5, -0.5), PointVertex(0.5, -0.5), PointVertex(0.0, 0.5)])
  }

  /** The stored box of the example triangle holds (0, 0) and not (0.9, 0.9). */
  lemma ExampleBox()
    ensures var t := ExampleTriangle(); BoxContains(t[0].position, t[1].position, t[2].position, 0.0, 0.0)
    ensures var t := ExampleTriangle(); !BoxContains(t[0].position, t[1].position, t[2].position, 0.9, 0.9)
  {
  }

  /** Under a record at rest with identity view every position is seen where it is stored. */
  lemma SeenAtRest(u: Uniform, p: Vec4)
    requires AtRest(u) && u.view == Identity()
    ensures Transformed(u, p) == p
  {
    ComposedAtRest(u);
  }

  /** A triangle seen where it is stored is hit exactly when its stored box holds the click. */
  lemma HitAsStored(tris: seq<Vertex>, u: Uniform, x: real, y: real)
    requires |tris| >= 3
    requires Transformed(u, tris[0].position) == tris[0].position
    requires Transformed(u, tris[1].position) == tris[1].position
    requires Transformed(u, tris[2].position) == tris[2].position
    ensures TriangleHit(tris, u, 0, x, y) == BoxContains(tris[0].position, tris[1].position, tris[2].position, x, y)
  {
  }

  /** A list of one triangle: the scan returns 0 when that triangle is hit and -1 otherwise. */
  lemma FirstHitOfOne(tris: seq<Vertex>, u: Uniform, x: real, y: real)
    requires |tris| == 3
    ensures FirstHitFrom(tris, u, x, y, 0) == if TriangleHit(tris, u, 0, x, y) then 0 else -1
  {
    assert FirstHitFrom(tris, u, x, y, 3) == -1;
  }

  /** The worked example: one committed triangle with corners (-0.5, -0.5),
      (0.5, -0.5) and (0, 0.5) under a record at rest with identity view, such as
      the start-up record. A click at (0, 0)
      selects it; a click at (0.9, 0.9) lies outside its box and selects nothing. */
  lemma HitTestExample(u: Uniform)
    requires AtRest(u) && u.view == Identity()
    ensures FirstHitFrom(ExampleTriangle(), u, 0.0, 0.0, 0) == 0
    ensures FirstHitFrom(ExampleTriangle(), u, 0.9, 0.9, 0) == -1
  {
    var tris := ExampleTriangle();
    SeenAtRest(u, tris[0].position);
    SeenAtRest(u, tris[1].position);
    SeenAtRest(u, tris[2].position);
    HitAsStored(tris, u, 0.0, 0.0);
    HitAsStored(tris, u, 0.9, 0.9);
    ExampleBox();
    FirstHitOfOne(tris, u, 0.0, 0.0);
    FirstHitOfOne(tris, u, 0.9, 0.9);
  }

  /** The transform of a barycenter is the barycenter of the transformed corners. */
  lemma TransformedBarycenter(u: Uniform, a: Vec4, b: Vec4, c: Vec4)
    ensures Transformed(u, Barycenter(a, b, c)) == Barycenter(Transformed(u, a), Transformed(u, b), Transformed(u, c))
  {
    ApplyBarycenter(Composed(u), a, b, c);
  }

  /** Squared distance from the transformed vertex `k` to the cursor; it orders
      the vertices as the Euclidean distance does. */
  function CursorDistance(tris: seq<Vertex>, u: Uniform, k: int, p: Vec4): (r: real)
    requires 0 <= k < |tris|
    ensures r >= 0.0
    ensures Transformed(u, tris[k].position) == p ==> r == 0.0
  {
    SquaredNorm(Sub(Transformed(u, tris[k].position), p))
  }

  /** `getNearestVertex`: the index of the vertex of triangle `t` closest to the
      cursor; among equally close vertices the first one wins, as with `std::min_element`. */
  function NearestVertex(tris: seq<Vertex>, u: Uniform, t: int, p: Vec4): (r: int)
    requires 0 <= t && t + 2 < |tris|
    ensures t <= r <= t + 2
    ensures forall k :: t <= k <= t + 2 ==> CursorDistance(tris, u, r, p) <= CursorDistance(tris, u, k, p)
    ensures forall k :: t <= k < r ==> CursorDistance(tris, u, k, p) > CursorDistance(tris, u, r, p)
  {
    var d0, d1, d2 := CursorDistance(tris, u, t, p), CursorDistance(tris, u, t + 1, p), CursorDistance(tris, u, t + 2, p);
    if d0 <= d1 && d0 <= d2 then t else if d1 <= d2 then t + 1 else t + 2
  }
}
