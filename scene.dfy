/** The data the editor works on: vertices, the flat triangle list, the shared
    uniform transform record, and the pure edits the handlers apply to them. */
module Scene {
  import opened Geometry

  /** `VertexAttributes`: homogeneous position, RGBA colour, the flag the vertex
      shader reads, and the barycenter of the triangle the vertex belongs to. */
  datatype Vertex = Vertex(position: Vec4, color: Vec4, selected: bool, baryCenter: Vec4)

  const Blue := Vec4(0.0, 0.0, 1.0, 1.0)
  const Highlight := Vec4(0.5, 0.8, 0.0, 1.0)

  /** Colour and barycenter of a freshly constructed vertex. They belong to the
      rasterizer's vertex type, which is not part of this model; nothing proved
      here depends on them, since a commit overwrites both. */
  const DefaultColor := Vec4(1.0, 1.0, 1.0, 1.0)
  const DefaultBarycenter := Vec4(0.0, 0.0, 0.0, 0.0)

  /** `VertexAttributes(x, y, 0, 1)`: a new, unselected vertex. Being
      unselected is, like the colour and barycenter above, a default of the
      rasterizer's vertex type. */
  function PointVertex(x: real, y: real): (v: Vertex)
    ensures IsPlanarPoint(v.position) && v.position.x == x && v.position.y == y
    ensures !v.selected
  {
    Vertex(Vec4(x, y, 0.0, 1.0), DefaultColor, false, DefaultBarycenter)
  }

  /** Window size fixed by the editor. */
  const Width := 500
  const Height := 500

  /** Pixel column to normalised device x. */
  function NdcX(px: int): (r: real)
    ensures (r + 1.0) * (Width as real) / 2.0 == px as real
    ensures 0 <= px < Width ==> -1.0 <= r < 1.0
  {
    px as real / Width as real * 2.0 - 1.0
  }

  /** Pixel row to normalised device y. Rows count downwards on screen, so the
      axis is flipped: the bottom row maps to -1. */
  function NdcY(py: int): (r: real)
    ensures (r + 1.0) * (Height as real) / 2.0 == (Height - 1 - py) as real
    ensures 0 <= py < Height ==> -1.0 <= r < 1.0
  {
    (Height - 1 - py) as real / Height as real * 2.0 - 1.0
  }

  /** `UniformAttributes`: the transform record shared by every handler and the shader. */
  datatype Uniform = Uniform(
    view: Mat4, translate: Mat4, rotate: Mat4, scale: Mat4,
    scaleFactor: real, rotateRadians: real, translateDelta: Vec4, mode: char)

  const Zero := Vec4(0.0, 0.0, 0.0, 0.0)

  /** The per-object transforms and their parameters are neutral. */
  predicate AtRest(u: Uniform) {
    u.translate == Identity() && u.rotate == Identity() && u.scale == Identity() &&
    u.scaleFactor == 1.0 && u.rotateRadians == 0.0 && u.translateDelta == Zero
  }

  /** Every matrix of the record maps the drawing plane to itself. */
  predicate PlanarUniform(u: Uniform) {
    Planar(u.view) && Planar(u.translate) && Planar(u.rotate) && Planar(u.scale)
  }

  /** The record as the editor sets it up; the mode tag is whatever the record's
      default construction leaves there, so it is a parameter. */
  function InitialUniform(tag: char): (u: Uniform)
    ensures AtRest(u) && u.view == Identity() && u.mode == tag && PlanarUniform(u)
  {
    Uniform(Identity(), Identity(), Identity(), Identity(), 1.0, 0.0, Zero, tag)
  }

  /** `view * translate * rotate * scale`, grouped from the left as Eigen evaluates it. */
  function Composed(u: Uniform): (m: Mat4)
    ensures PlanarUniform(u) ==> Planar(m)
  {
    Mul(Mul(Mul(u.view, u.translate), u.rotate), u.scale)
  }

  /** A position as the hit tester, the nearest-vertex query and the shader see it. */
  function Transformed(u: Uniform, p: Vec4): (q: Vec4)
    ensures PlanarUniform(u) && IsPlanarPoint(p) ==> IsPlanarPoint(q)
  {
    Apply(Composed(u), p)
  }

  /** The reset `deleteTriangle` performs: all four matrices, the view included,
      and the three scalars go back to neutral; the mode tag is kept. */
  function ResetUniform(u: Uniform): (r: Uniform)
    ensures AtRest(r) && r.view == Identity() && r.mode == u.mode && PlanarUniform(r)
  {
    InitialUniform(u.mode)
  }

  /** With all four matrices at identity the composed transform is the identity. */
  lemma ComposedAtRest(u: Uniform)
    requires AtRest(u) && u.view == Identity()
    ensures Composed(u) == Identity()
  {
    IdentityPrefix(u.view, u.translate, u.rotate, u.scale);
  }

  /** After the reset every vertex is drawn exactly where it is stored. */
  lemma ResetShowsStoredPositions(u: Uniform, p: Vec4)
    ensures Transformed(ResetUniform(u), p) == p
  {
    ComposedAtRest(ResetUniform(u));
  }

  /** `setColor` on the triangle whose first vertex is at `i`. */
  function SetTriangleColor(tris: seq<Vertex>, i: int, c: Vec4): (r: seq<Vertex>)
    requires 0 <= i && i + 2 < |tris|
    ensures |r| == |tris|
    ensures forall j :: 0 <= j < |r| ==>
      r[j] == if i <= j <= i + 2 then tris[j].(color := c) else tris[j]
  {
    tris[i := tris[i].(color := c)][i + 1 := tris[i + 1].(color := c)][i + 2 := tris[i + 2].(color := c)]
  }

  /** The `selected = true` writes of translateTriangle, scaleTriangle and rotateTriangle. */
  function MarkSelected(tris: seq<Vertex>, i: int): (r: seq<Vertex>)
    requires 0 <= i && i + 2 < |tris|
    ensures |r| == |tris|
    ensures forall j :: 0 <= j < |r| ==>
      r[j] == if i <= j <= i + 2 then tris[j].(selected := true) else tris[j]
  {
    tris[i := tris[i].(selected := true)][i + 1 := tris[i + 1].(selected := true)][i + 2 := tris[i + 2].(selected := true)]
  }

  /** `triangles.erase(begin + i, begin + i + 3)`: the three vertices from `i` go,
      everything else keeps its order. */
  function EraseTriangle(tris: seq<Vertex>, i: int): (r: seq<Vertex>)
    requires 0 <= i && i + 3 <= |tris|
    ensures |r| == |tris| - 3
    ensures forall j :: 0 <= j < i ==> r[j] == tris[j]
    ensures forall j :: i <= j < |r| ==> r[j] == tris[j + 3]
  {
    tris[..i] + tris[i + 3..]
  }

  /** The commit in `redraw`: the three pending vertices, coloured blue and each
      carrying the barycenter of the three positions. */
  function CommitTriangle(pending: seq<Vertex>): (r: seq<Vertex>)
    requires |pending| == 3
    ensures |r| == 3
    ensures forall k :: 0 <= k < 3 ==>
      && r[k].position == pending[k].position
      && r[k].selected == pending[k].selected
      && r[k].color == Blue
      && r[k].baryCenter == Barycenter(pending[0].position, pending[1].position, pending[2].position)
  {
    var g := Barycenter(pending[0].position, pending[1].position, pending[2].position);
    [pending[0].(color := Blue, baryCenter := g),
     pending[1].(color := Blue, baryCenter := g),
     pending[2].(color := Blue, baryCenter := g)]
  }

  /** The three vertices from `i` on carry the barycenter of their own positions. */
  predicate HasOwnBarycenter(tris: seq<Vertex>, i: int)
    requires 0 <= i && i + 2 < |tris|
  {
    var g := Barycenter(tris[i].position, tris[i + 1].position, tris[i + 2].position);
    tris[i].baryCenter == g && tris[i + 1].baryCenter == g && tris[i + 2].baryCenter == g
  }

  /** The scene invariant: whole triangles only, every vertex a point of the
      drawing plane, every triangle stamped with its own barycenter. The
      modelled handlers keep it; the animation playback, which is not
      modelled, does not. */
  ghost predicate WellFormedScene(tris: seq<Vertex>) {
    && |tris| % 3 == 0
    && (forall j :: 0 <= j < |tris| ==> IsPlanarPoint(tris[j].position))
    && (forall i :: 0 <= i && i + 2 < |tris| && i % 3 == 0 ==> HasOwnBarycenter(tris, i))
  }

  /** Two vertex lists that agree on positions and barycenters. */
  ghost predicate SameGeometry(a: seq<Vertex>, b: seq<Vertex>) {
    |a| == |b| &&
    forall j :: 0 <= j < |a| ==> a[j].position == b[j].position && a[j].baryCenter == b[j].baryCenter
  }

  /** Recolouring and selecting keep the scene invariant: it speaks only of geometry. */
  lemma {:induction false} SameGeometryKeepsWellFormed(a: seq<Vertex>, b: seq<Vertex>)
    requires WellFormedScene(a) && SameGeometry(a, b)
    ensures WellFormedScene(b)
  {
    forall i | 0 <= i && i + 2 < |b| && i % 3 == 0
      ensures HasOwnBarycenter(b, i)
    {
      assert HasOwnBarycenter(a, i);
    }
  }

  /** Appending a committed triangle keeps the scene invariant. */
  lemma {:induction false} CommitKeepsWellFormed(tris: seq<Vertex>, pending: seq<Vertex>)
    requires WellFormedScene(tris)
    requires |pending| == 3 && forall k :: 0 <= k < 3 ==> IsPlanarPoint(pending[k].position)
    ensures WellFormedScene(tris + CommitTriangle(pending))
  {
    var c := CommitTriangle(pending);
    var r := tris + c;
    forall i | 0 <= i && i + 2 < |r| && i % 3 == 0
      ensures HasOwnBarycenter(r, i)
    {
      if i < |tris| {
        assert i + 2 < |tris|;
        assert HasOwnBarycenter(tris, i);
        assert r[i] == tris[i] && r[i + 1] == tris[i + 1] && r[i + 2] == tris[i + 2];
      } else {
        assert i == |tris|;
        assert r[i] == c[0] && r[i + 1] == c[1] && r[i + 2] == c[2];
      }
    }
  }

  /** Erasing a whole triangle keeps the scene invariant: the triangles after it
      move down by exactly one triangle. */
  lemma {:induction false} EraseKeepsWellFormed(tris: seq<Vertex>, i: int)
    requires WellFormedScene(tris)
    requires 0 <= i && i + 2 < |tris| && i % 3 == 0
    ensures WellFormedScene(EraseTriangle(tris, i))
  {
    var r := EraseTriangle(tris, i);
    forall k | 0 <= k && k + 2 < |r| && k % 3 == 0
      ensures HasOwnBarycenter(r, k)
    {
      if k < i {
        assert k + 3 <= i;
        assert HasOwnBarycenter(tris, k);
        assert r[k] == tris[k] && r[k + 1] == tris[k + 1] && r[k + 2] == tris[k + 2];
      } else {
        assert (k + 3) % 3 == 0;
        assert HasOwnBarycenter(tris, k + 3);
        assert r[k] == tris[k + 3] && r[k + 1] == tris[k + 4] && r[k + 2] == tris[k + 5];
      }
    }
  }

  predicate IsDigitKey(key: char) {
    '1' <= key <= '9'
  }

  /** The colour ramp of the colour mode: digit d gives (v, v + 0.1, v + 0.2, 1)
      with v = (d - '1') * 0.1, so '1' is the darkest and '9' the lightest. */
  function RampColor(key: char): (c: Vec4)
    requires IsDigitKey(key)
    ensures 0.0 <= c.x <= 0.8 && c.y == c.x + 0.1 && c.z == c.x + 0.2 && c.w == 1.0
    ensures c.x * 10.0 + 1.0 == (key as int - '0' as int) as real
  {
    var v := (key as int - '1' as int) as real * 0.1;
    Vec4(v, v + 0.1, v + 0.2, 1.0)
  }

  /** Distinct digits give distinct colours: the key can be read back from the colour. */
  lemma RampColorInjective(k1: char, k2: char)
    requires IsDigitKey(k1) && IsDigitKey(k2) && RampColor(k1) == RampColor(k2)
    ensures k1 == k2
  {
    assert (k1 as int - '0' as int) as real == (k2 as int - '0' as int) as real;
  }

  /** The worked example: key '3' gives (0.2, 0.3, 0.4, 1). */
  lemma RampColorThree()
    ensures RampColor('3') == Vec4(0.2, 0.3, 0.4, 1.0)
  {
  }
}
