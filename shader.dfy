/** The vertex shader: every vertex goes through `view * translate * rotate *
    scale`, except that a selected vertex, while the last action was a scale or a
    rotation, is transformed about its triangle's barycenter instead of about the
    origin. */
module Shader {
  import opened Geometry
  import opened Scene
  import Transforms
  import opened HitTest

  /** The mode tags of the scale and rotate keys: the shader pivots exactly
      under the tags that a transform key of the translation mode leaves. */
  predicate IsPivotMode(mode: char): (r: bool)
    ensures r <==> Transforms.IsTransformKey(mode)
  {
    mode == 'h' || mode == 'j' || mode == 'l' || mode == 'k'
  }

  /** Moves the barycenter `b` to the origin, applies the composed transform, and
      moves the origin back to `b`, one matrix at a time as the shader does. */
  function AboutBarycenter(u: Uniform, b: Vec4, p: Vec4): (q: Vec4)
    ensures PlanarUniform(u) && IsPlanarPoint(p) ==> IsPlanarPoint(q)
  {
    Apply(TranslationMatrix(b.x, b.y), Transformed(u, Apply(TranslationMatrix(-b.x, -b.y), p)))
  }

  /** The shader. Only the position changes; colour, flag and barycenter pass through. */
  function VertexShader(va: Vertex, u: Uniform): (r: Vertex)
    ensures r == va.(position := r.position)
    ensures va.selected && IsPivotMode(u.mode) ==> r.position == AboutBarycenter(u, va.baryCenter, va.position)
    ensures !(va.selected && IsPivotMode(u.mode)) ==> r.position == Transformed(u, va.position)
    ensures PlanarUniform(u) && IsPlanarPoint(va.position) ==> IsPlanarPoint(r.position)
  {
    if va.selected && IsPivotMode(u.mode) then
      va.(position := AboutBarycenter(u, va.baryCenter, va.position))
    else
      va.(position := Transformed(u, va.position))
  }

  /** Every matrix of the record keeps the origin where it is. */
  predicate OriginFixing(u: Uniform) {
    FixesOrigin(u.view) && FixesOrigin(u.translate) && FixesOrigin(u.rotate) && FixesOrigin(u.scale)
  }

  /** The pivot is a fixed point: when no matrix of the record moves the origin,
      the barycenter itself is mapped onto itself. */
  lemma PivotFixesBarycenter(u: Uniform, b: Vec4)
    requires OriginFixing(u) && IsPlanarPoint(b)
    ensures AboutBarycenter(u, b, b) == b
  {
    ApplyTranslation(-b.x, -b.y, b);
    assert Apply(TranslationMatrix(-b.x, -b.y), b) == Origin;
    assert FixesOrigin(Composed(u));
    ApplyTranslation(b.x, b.y, Origin);
  }

  /** With view, translate and rotate at identity, the composed transform is the scale matrix. */
  lemma ComposedOfScale(u: Uniform, f: real)
    requires u.view == Identity() && u.translate == Identity() && u.rotate == Identity()
    requires u.scale == ScaleMatrix(f)
    ensures Composed(u) == ScaleMatrix(f)
  {
    IdentityPrefix(u.view, u.translate, u.rotate, u.scale);
  }

  /** With view, translate and scale at identity, the composed transform is the rotate matrix. */
  lemma ComposedOfRotation(u: Uniform, c: real, s: real)
    requires u.view == Identity() && u.translate == Identity() && u.scale == Identity()
    requires u.rotate == RotationMatrix(c, s)
    ensures Composed(u) == RotationMatrix(c, s)
  {
    IdentityButThird(u.view, u.translate, u.rotate, u.scale);
  }

  /** The pivot transform spelled out with the composed matrix `m`. */
  lemma PivotThrough(u: Uniform, m: Mat4, b: Vec4, p: Vec4)
    requires Composed(u) == m
    ensures AboutBarycenter(u, b, p) == Apply(TranslationMatrix(b.x, b.y), Apply(m, Apply(TranslationMatrix(-b.x, -b.y), p)))
  {
  }

  /** A scale about the barycenter: with the other matrices at identity and the
      scale matrix a uniform scaling by `f`, a point moves to `b + f * (p - b)`. */
  lemma PivotScales(u: Uniform, f: real, b: Vec4, p: Vec4)
    requires u.view == Identity() && u.translate == Identity() && u.rotate == Identity()
    requires u.scale == ScaleMatrix(f)
    requires IsPlanarPoint(b) && IsPlanarPoint(p)
    ensures AboutBarycenter(u, b, p) == Vec4(f * (p.x - b.x) + b.x, f * (p.y - b.y) + b.y, 0.0, 1.0)
  {
    ComposedOfScale(u, f);
    PivotThrough(u, ScaleMatrix(f), b, p);
    ScaleAboutPoint(f, b, p);
  }

  /** A rotation about the barycenter: with the other matrices at identity and the
      rotate matrix a rotation with cosine `c` and sine `s`, the offset from `b`
      turns by that angle. */
  lemma PivotRotates(u: Uniform, c: real, s: real, b: Vec4, p: Vec4)
    requires u.view == Identity() && u.translate == Identity() && u.scale == Identity()
    requires u.rotate == RotationMatrix(c, s)
    requires IsPlanarPoint(b) && IsPlanarPoint(p)
    ensures AboutBarycenter(u, b, p)
         == Vec4(c * (p.x - b.x) - s * (p.y - b.y) + b.x, s * (p.x - b.x) + c * (p.y - b.y) + b.y, 0.0, 1.0)
  {
    ComposedOfRotation(u, c, s);
    PivotThrough(u, RotationMatrix(c, s), b, p);
    RotateAboutPoint(c, s, b, p);
  }

  /** A selected triangle scaled or rotated in place keeps its centroid: the
      barycenter of the three shaded corners is the stored barycenter. */
  lemma PivotKeepsCentroid(tris: seq<Vertex>, i: int, u: Uniform)
    requires 0 <= i && i + 2 < |tris| && HasOwnBarycenter(tris, i)
    requires IsPlanarPoint(tris[i].position) && IsPlanarPoint(tris[i + 1].position) && IsPlanarPoint(tris[i + 2].position)
    requires tris[i].selected && tris[i + 1].selected && tris[i + 2].selected
    requires IsPivotMode(u.mode) && OriginFixing(u)
    ensures Barycenter(VertexShader(tris[i], u).position, VertexShader(tris[i + 1], u).position,
                       VertexShader(tris[i + 2], u).position) == tris[i].baryCenter
  {
    var a, b, c := tris[i].position, tris[i + 1].position, tris[i + 2].position;
    var g := tris[i].baryCenter;
    assert g == Barycenter(a, b, c);
    BarycenterInBox(a, b, c);
    var toOrigin, back := TranslationMatrix(-g.x, -g.y), TranslationMatrix(g.x, g.y);
    ApplyBarycenter(toOrigin, a, b, c);
    var a0, b0, c0 := Apply(toOrigin, a), Apply(toOrigin, b), Apply(toOrigin, c);
    ApplyBarycenter(Composed(u), a0, b0, c0);
    var a1, b1, c1 := Transformed(u, a0), Transformed(u, b0), Transformed(u, c0);
    ApplyBarycenter(back, a1, b1, c1);
    PivotFixesBarycenter(u, g);
  }

  /** With only a scale by `f` in the record, the hit test sees a position scaled about the origin. */
  lemma SeenScaled(u: Uniform, f: real, p: Vec4)
    requires u.view == Identity() && u.translate == Identity() && u.rotate == Identity()
    requires u.scale == ScaleMatrix(f)
    ensures Transformed(u, p) == Vec4(f * p.x, f * p.y, p.z, p.w)
  {
    ComposedOfScale(u, f);
    ApplyScale(f, p);
  }

  /** A record whose only non-identity matrix is a uniform scaling keeps the origin fixed. */
  lemma ScaleOnlyFixesOrigin(u: Uniform, f: real)
    requires u.view == Identity() && u.translate == Identity() && u.rotate == Identity()
    requires u.scale == ScaleMatrix(f)
    ensures OriginFixing(u)
  {
  }

  /** The box of the triangle below scaled by 2 about the origin misses (0.5, 0). */
  lemma DoubledBoxMisses()
    ensures !BoxContains(Vec4(0.8, -0.2, 0.0, 1.0), Vec4(1.2, -0.2, 0.0, 1.0), Vec4(1.0, 0.4, 0.0, 1.0), 0.5, 0.0)
  {
  }

  /** A selected, stamped triangle under a pivot tag and origin-fixing
      matrices is drawn with its centroid at its stored barycenter. */
  lemma DrawnCentroid(t: seq<Vertex>, u: Uniform)
    requires |t| == 3 && HasOwnBarycenter(t, 0)
    requires IsPlanarPoint(t[0].position) && IsPlanarPoint(t[1].position) && IsPlanarPoint(t[2].position)
    requires t[0].selected && t[1].selected && t[2].selected
    requires IsPivotMode(u.mode) && OriginFixing(u)
    ensures Barycenter(VertexShader(t[0], u).position, VertexShader(t[1], u).position,
                       VertexShader(t[2], u).position) == t[0].baryCenter
  {
    PivotKeepsCentroid(t, 0, u);
  }

  /** The triangle below, under a scaling by 2 about the origin, is missed
      by a click at (0.5, 0). */
  lemma DoubledTriangleMisses(t: seq<Vertex>, u: Uniform, f: real)
    requires |t| == 3 && t[0].baryCenter == Vec4(0.5, 0.0, 0.0, 1.0)
    requires t[0].position == Vec4(0.4, -0.1, 0.0, 1.0)
    requires t[1].position == Vec4(0.6, -0.1, 0.0, 1.0)
    requires t[2].position == Vec4(0.5, 0.2, 0.0, 1.0)
    requires u.view == Identity() && u.translate == Identity() && u.rotate == Identity()
    requires f == 2.0 && u.scale == ScaleMatrix(f)
    ensures OriginFixing(u)
    ensures FirstHitFrom(t, u, t[0].baryCenter.x, t[0].baryCenter.y, 0) == -1
  {
    ScaleOnlyFixesOrigin(u, f);
    SeenScaled(u, f, t[0].position);
    SeenScaled(u, f, t[1].position);
    SeenScaled(u, f, t[2].position);
    DoubledBoxMisses();
    FirstHitOfOne(t, u, 0.5, 0.0);
  }

  /** The hit test ignores the pivot rule. Take a grabbed triangle with
      corners (0.4, -0.1), (0.6, -0.1) and (0.5, 0.2), stamped with its
      barycenter (0.5, 0), under a pivot tag and a record whose only
      non-identity matrix is a scaling by 2. The shader draws it about that
      barycenter, so its drawn centroid stays at (0.5, 0); the hit test scales
      the corners about the origin instead, so a click at that very centroid
      selects nothing. */
  lemma HitTestIgnoresPivot(t: seq<Vertex>, u: Uniform, f: real)
    requires |t| == 3 && HasOwnBarycenter(t, 0) && t[0].baryCenter == Vec4(0.5, 0.0, 0.0, 1.0)
    requires t[0].position == Vec4(0.4, -0.1, 0.0, 1.0)
    requires t[1].position == Vec4(0.6, -0.1, 0.0, 1.0)
    requires t[2].position == Vec4(0.5, 0.2, 0.0, 1.0)
    requires t[0].selected && t[1].selected && t[2].selected
    requires IsPivotMode(u.mode)
    requires u.view == Identity() && u.translate == Identity() && u.rotate == Identity()
    requires f == 2.0 && u.scale == ScaleMatrix(f)
    ensures Barycenter(VertexShader(t[0], u).position, VertexShader(t[1], u).position,
                       VertexShader(t[2], u).position) == t[0].baryCenter
    ensures FirstHitFrom(t, u, t[0].baryCenter.x, t[0].baryCenter.y, 0) == -1
  {
    DoubledTriangleMisses(t, u, f);
    DrawnCentroid(t, u);
  }
}
