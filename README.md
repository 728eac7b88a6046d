# 2D triangle editor: model of the editing core

This project models the core of a small interactive 2D editor (`src/RasterViewer.cpp`).
With it you build triangles by clicking three corners. You then switch modes by key to
move, scale, rotate, delete or recolour them, and you pan and zoom a global view.

The model covers:

- the editing state the viewer callbacks share;
- the mode table;
- the bounding-box hit test on transformed geometry;
- the nearest-vertex query;
- the uniform transform record (`view`, `translate`, `rotate`, `scale` and their scalar bookkeeping) and every update the keys make to it;
- the pivot rule of the vertex shader;
- the commit of a finished triangle.

The model has seven modules:

- `Geometry`: exact-real 4-vectors and 4×4 matrices, with the algebra the proofs need.
- `Scene`: vertices, the transform record, and the pure edits on the triangle list. It also holds the scene invariant: whole triangles, planar points, and every triangle stamped with its own barycenter. Every handler in this model keeps it; the animation playback, which is not modelled, does not (see "Left out").
- `Modes`: the mode keys.
- `HitTest`: triangle picking and the nearest vertex.
- `Transforms`: the record updates of the transform, zoom and pan keys, as functions.
- `Shader`: the vertex shader.
- `Editor`: a class whose fields are the variables the callbacks share, and whose methods are the callbacks and the helper procedures. Each method changes only the fields its `modifies` frame names. Each method keeps the invariant `Valid()`.

Two behaviours of the code are easy to misread; the model follows the code:

- **Which triangles the transforms apply to.** The shader passes every vertex through `view * translate * rotate * scale`. So the per-object matrices move all triangles, not only the selected one. `Shader.VertexShader` states this for unselected vertices.
- **Deselection.** Clicking empty space does not reset those matrices; among the modelled handlers only a deletion does. The animation playback, which is left out, also sets `translate` to the identity (537, 567) and never restores the copy it saved. `Editor.Editor.TranslationPress` keeps `uniform` unchanged.

## Model

| member | source | states |
|---|---|---|
| Geometry.SquaredNorm | src/RasterViewer.cpp:218-221 | the squared length used to compare cursor distances is never negative |
| Geometry.Apply | src/RasterViewer.cpp:79-81 | a plane-preserving matrix maps plane points to plane points; an origin-fixing matrix fixes the origin |
| Geometry.Mul | src/RasterViewer.cpp:79 | products of plane-preserving (origin-fixing) matrices are plane-preserving (origin-fixing) |
| Geometry.Identity | src/RasterViewer.cpp:49 | the identity matrix keeps the plane and the origin and fixes every vector |
| Geometry.TranslationMatrix | src/RasterViewer.cpp:143-146 | the drag matrix keeps the plane and carries the offset in its last column |
| Geometry.ScaleMatrix | src/RasterViewer.cpp:156-160 | the scale matrix keeps the plane and the origin |
| Geometry.RotationMatrix | src/RasterViewer.cpp:170-175 | the rotation matrix keeps the plane and the origin |
| Geometry.ApplyTranslation | src/RasterViewer.cpp:143-146 | a translation moves a vector by its weight times the offset |
| Geometry.ApplyScale | src/RasterViewer.cpp:156-160 | a scale multiplies x and y by the factor |
| Geometry.ApplyRotation | src/RasterViewer.cpp:170-175 | a rotation maps (x, y) to (c·x − s·y, s·x + c·y) |
| Geometry.MovePlanarPoint | src/RasterViewer.cpp:343-354 | a translation moves a plane point by exactly the offset |
| Geometry.ScaleAboutPoint | src/RasterViewer.cpp:341-354 | move-to-origin, scale, move-back scales the offset from the pivot |
| Geometry.RotateAboutPoint | src/RasterViewer.cpp:341-354 | move-to-origin, rotate, move-back turns the offset from the pivot |
| Geometry.IdentityUnit | src/RasterViewer.cpp:49 | the identity is neutral on both sides of a product |
| Geometry.IdentityPrefix | src/RasterViewer.cpp:348 | with view, translate and rotate at identity the composed product is the scale matrix |
| Geometry.IdentityButThird | src/RasterViewer.cpp:348 | with view, translate and scale at identity the composed product is the rotate matrix |
| Geometry.TranslationCompose | src/RasterViewer.cpp:143-148 | two translations compose into one by the summed offsets |
| Geometry.TranslateTwice | src/RasterViewer.cpp:267-307 | translating a matrix twice equals translating it once by the summed offsets |
| Geometry.ScaleCompose | src/RasterViewer.cpp:157-162 | two uniform scalings compose into one by the product of the factors |
| Geometry.RotationCompose | src/RasterViewer.cpp:176 | two rotations compose by the angle-addition formulas |
| Geometry.Barycenter | src/RasterViewer.cpp:633 | the offsets of the three corners from the barycenter cancel out in x and in y, and the barycenter of plane points is a plane point |
| Geometry.Min3 | src/RasterViewer.cpp:86-89 | the lower corner of the box is the least of the three coordinates and one of them |
| Geometry.Max3 | src/RasterViewer.cpp:86-89 | the upper corner of the box is the greatest of the three coordinates and one of them |
| Geometry.BarycenterInBox | src/RasterViewer.cpp:633 | the barycenter lies in the corners' box and is a plane point when they are |
| Geometry.RowOfCentroid | src/RasterViewer.cpp:633 | one row of a matrix commutes with averaging three vectors |
| Geometry.ApplyBarycenter | src/RasterViewer.cpp:633 | a matrix maps the barycenter to the barycenter of the images |
| Scene.PointVertex | src/RasterViewer.cpp:452-453 | a clicked point becomes an unselected vertex of the drawing plane at exactly the clicked coordinates |
| Scene.NdcX | src/RasterViewer.cpp:417 | pixel column to device x is invertible, and on-screen columns land in [−1, 1) |
| Scene.NdcY | src/RasterViewer.cpp:418 | pixel row to device y flips the axis, is invertible, and on-screen rows land in [−1, 1) |
| Scene.InitialUniform | src/RasterViewer.cpp:324-392 | the start-up record is at rest with an identity view |
| Scene.Composed | src/RasterViewer.cpp:79 | the composed transform of a plane-preserving record keeps the plane |
| Scene.Transformed | src/RasterViewer.cpp:79-81 | transformed plane points stay in the plane |
| Scene.ResetUniform | src/RasterViewer.cpp:103-109 | after a deletion the record is at rest, the view is the identity and the mode tag is kept |
| Scene.ComposedAtRest | src/RasterViewer.cpp:103-106 | a record at rest with identity view composes to the identity |
| Scene.ResetShowsStoredPositions | src/RasterViewer.cpp:103-109 | after the reset every vertex is drawn at its stored position |
| Scene.SetTriangleColor | src/RasterViewer.cpp:65-69 | exactly the three vertices of the triangle get the colour; everything else is unchanged |
| Scene.MarkSelected | src/RasterViewer.cpp:140-142 | exactly the three vertices of the triangle are flagged; everything else is unchanged |
| Scene.EraseTriangle | src/RasterViewer.cpp:102 | three vertices go; those before keep their place, those after move down by three |
| Scene.CommitTriangle | src/RasterViewer.cpp:631-637 | the pending corners keep their positions, turn blue and carry their common barycenter |
| Scene.SameGeometryKeepsWellFormed | src/RasterViewer.cpp:65-69 | recolouring or flagging keeps the scene invariant |
| Scene.CommitKeepsWellFormed | src/RasterViewer.cpp:630-640 | committing a triangle keeps the scene invariant |
| Scene.EraseKeepsWellFormed | src/RasterViewer.cpp:102 | erasing a whole triangle keeps the scene invariant |
| Scene.RampColor | src/RasterViewer.cpp:596-597 | digit d gives (v, v+0.1, v+0.2, 1) with 10·v + 1 = d, in [0, 0.8] |
| Scene.RampColorInjective | src/RasterViewer.cpp:596-597 | distinct digits give distinct colours |
| Scene.RampColorThree | src/RasterViewer.cpp:596-597 | key '3' gives (0.2, 0.3, 0.4, 1) |
| Modes.ModeAfterKey | src/RasterViewer.cpp:115-136 | a mode key selects the mode it is bound to; any other key keeps the mode |
| Modes.ModeKeyDetermines | src/RasterViewer.cpp:23 | the key table is unambiguous, so the result does not depend on the previous mode |
| Modes.ModeAfterKeyIdempotent | src/RasterViewer.cpp:115-136 | pressing a key twice is pressing it once |
| HitTest.BoxContains | src/RasterViewer.cpp:87-91 | the grown box holds (x, y, 0) exactly when each coordinate is at least that of some corner and at most that of some corner |
| HitTest.FirstHitFrom | src/RasterViewer.cpp:77-96 | the first whole triangle whose transformed box holds the click, every earlier one missed, or −1 |
| HitTest.GetSelectedTriangleIndex | src/RasterViewer.cpp:77-96 | the scan loop returns exactly the first hit (a multiple of 3, in range), or −1 when nothing is hit |
| HitTest.CentroidClickSelects | src/RasterViewer.cpp:86-92 | a click at the centroid of a triangle's transformed corners (as the hit test transforms them) selects that triangle or an earlier one |
| HitTest.FirstHitOfOne | src/RasterViewer.cpp:78-95 | with a single triangle the scan returns 0 when its box holds the click and −1 otherwise |
| HitTest.SeenAtRest | src/RasterViewer.cpp:79-81 | with the record at rest and an identity view the hit test sees every vertex where it is stored |
| HitTest.HitTestExample | src/RasterViewer.cpp:77-96 | the triangle (−0.5,−0.5), (0.5,−0.5), (0,0.5) at rest is selected by a click at (0,0) and not by one at (0.9,0.9) |
| HitTest.TransformedBarycenter | src/RasterViewer.cpp:79-81 | the composed transform commutes with taking barycenters |
| HitTest.CursorDistance | src/RasterViewer.cpp:215-221 | the compared distance is never negative and is zero for a vertex seen right under the cursor |
| HitTest.NearestVertex | src/RasterViewer.cpp:214-223 | one of the triangle's three vertices, no farther than the other two, the first among equals |
| Transforms.TranslateUniform | src/RasterViewer.cpp:139-148 | only the translate matrix changes, and the record keeps the plane |
| Transforms.TranslateAccumulates | src/RasterViewer.cpp:143-148 | successive drags add up: a pure translation stays one, by the summed offsets |
| Transforms.ScaleUniform | src/RasterViewer.cpp:151-162 | only the scale matrix changes; it keeps the plane and the origin |
| Transforms.ScaleAccumulates | src/RasterViewer.cpp:156-162 | a uniform scaling stays one, by the product of the factors |
| Transforms.RotateUniform | src/RasterViewer.cpp:165-177 | only the rotate matrix changes; it keeps the plane and the origin |
| Transforms.RotateAccumulates | src/RasterViewer.cpp:170-176 | a rotation stays one, by the angle-addition formulas |
| Transforms.ScaledUp | src/RasterViewer.cpp:183-185 | a factor below 1 snaps to 1, then grows by 0.25; the result is at least 1.25 |
| Transforms.ScaledDown | src/RasterViewer.cpp:190-192 | a factor above 1 snaps to 1, then shrinks by 0.25; the result is at most 0.75 |
| Transforms.TurnedClockwise | src/RasterViewer.cpp:197-199 | a negative angle snaps to 0, then grows by ten degrees |
| Transforms.TurnedCounterClockwise | src/RasterViewer.cpp:204-206 | a positive angle snaps to 0, then shrinks by ten degrees |
| Transforms.TransformAction | src/RasterViewer.cpp:180-211 | per key: new factor or angle, key as mode tag, matrix update; view, translate and offset kept; other keys change nothing |
| Transforms.ScaleDownThrice | src/RasterViewer.cpp:188-193 | from 1, three scale-down presses give 0.75, 0.5, 0.25 |
| Transforms.ReversalSnapsToNeutral | src/RasterViewer.cpp:180-211 | one press in the opposite direction lands one step past neutral, whatever the history |
| Transforms.ScaleKeysCompound | src/RasterViewer.cpp:180-193 | scale keys keep the scale matrix a uniform scaling by the accumulated product |
| Transforms.RotateKeysCompound | src/RasterViewer.cpp:194-207 | rotate keys keep the rotate matrix a rotation |
| Transforms.ViewStep | src/RasterViewer.cpp:230-307 | the step matrix of each zoom and pan key, with zoom saturating at 1 and offset at 0 |
| Transforms.ViewportChange | src/RasterViewer.cpp:226-313 | a zoom or pan key premultiplies the view and becomes the mode tag; other keys change nothing, tag included |
| Transforms.ScaledUpBy | src/RasterViewer.cpp:233-235 | zoom-in saturates a factor below 1 to 1 and adds the step |
| Transforms.ScaledDownBy | src/RasterViewer.cpp:245-247 | zoom-out saturates a factor above 1 to 1 and subtracts the step |
| Transforms.ShiftedDown | src/RasterViewer.cpp:258-260 | a positive offset snaps to 0, then decreases by 0.2 |
| Transforms.ShiftedUp | src/RasterViewer.cpp:271-273 | a negative offset snaps to 0, then increases by 0.2 |
| Transforms.ViewportFromKeyHandler | src/RasterViewer.cpp:603 | as the key handler calls it, each key is a fixed step: zoom ×1.2 / ×0.8, pan ±0.2 |
| Transforms.ZoomKeysCompound | src/RasterViewer.cpp:230-254 | zoom keys keep a uniformly scaled view a uniform scaling, by 1.2 or 0.8 times the old factor |
| Transforms.PanRoundTrip | src/RasterViewer.cpp:256-307 | panning one way and back restores the view exactly |
| Shader.IsPivotMode | src/RasterViewer.cpp:339-340 | the shader pivots under exactly the tags that the scale and rotate keys leave (k, l, h, j) |
| Shader.AboutBarycenter | src/RasterViewer.cpp:341-354 | the pivot transform keeps plane points in the plane |
| Shader.VertexShader | src/RasterViewer.cpp:335-364 | only the position changes: pivot transform for selected vertices under a scale or rotate tag, composed transform otherwise |
| Shader.PivotFixesBarycenter | src/RasterViewer.cpp:341-354 | with origin-fixing matrices the barycenter is a fixed point of the pivot transform |
| Shader.ComposedOfScale | src/RasterViewer.cpp:348 | a record with only a scale composes to that scale |
| Shader.ComposedOfRotation | src/RasterViewer.cpp:348 | a record with only a rotation composes to that rotation |
| Shader.PivotThrough | src/RasterViewer.cpp:341-354 | the pivot transform spelled out with the composed matrix |
| Shader.PivotScales | src/RasterViewer.cpp:338-355 | scaling about the barycenter maps p to b + f·(p − b) |
| Shader.PivotRotates | src/RasterViewer.cpp:338-355 | rotating about the barycenter turns p − b about b |
| Shader.HitTestIgnoresPivot | src/RasterViewer.cpp:79-91 | a grabbed triangle stamped with its barycenter, under a pivot tag and a scaling by 2, is drawn with its centroid at that barycenter, yet a click there hits nothing, because the hit test scales about the origin |
| Shader.PivotKeepsCentroid | src/RasterViewer.cpp:338-355 | a selected triangle scaled or rotated in place keeps its centroid |
| Editor.Editor.constructor | src/RasterViewer.cpp:378-399 | the start-up state: insertion mode, empty lists, record at rest, no selection |
| Editor.Editor.SetCurrentMode | src/RasterViewer.cpp:115-136 | the mode becomes the one the key table gives |
| Editor.Editor.TranslateTriangle | src/RasterViewer.cpp:139-148 | the triangle is flagged and the translate matrix takes in the offset; invariant kept |
| Editor.Editor.ScaleTriangle | src/RasterViewer.cpp:151-162 | the triangle is flagged and the scale matrix takes in the factor; invariant kept |
| Editor.Editor.RotateTriangle | src/RasterViewer.cpp:165-177 | the triangle is flagged and the rotate matrix takes in the angle; invariant kept |
| Editor.Editor.PerformTranslationAction | src/RasterViewer.cpp:180-211 | the record becomes TransformAction of the old one, and a transform key flags the triangle |
| Editor.Editor.DeleteTriangle | src/RasterViewer.cpp:99-112 | the first hit triangle is erased and the record reset, or nothing changes on a miss |
| Editor.Editor.ChangeViewport | src/RasterViewer.cpp:226-313 | the record becomes ViewportChange of the old one |
| Editor.Editor.MouseMove | src/RasterViewer.cpp:416-445 | insertion: the cursor replaces the last preview entry, whether a cursor point or the corner just placed, and is appended when the preview holds at most one entry; drag: the offset from the last cursor moves the grabbed triangle |
| Editor.Editor.InsertionPress | src/RasterViewer.cpp:450-457 | a release appends the corner to both lists and counts it |
| Editor.Editor.Ungrab | src/RasterViewer.cpp:466-473 | a miss turns the grabbed triangle blue and ends the grab |
| Editor.Editor.Release | src/RasterViewer.cpp:476-493 | a release ends the grab; after a drag the motion state is reset; invariant kept |
| Editor.Editor.Grab | src/RasterViewer.cpp:495-504 | a press highlights and grabs the hit triangle and records the cursor |
| Editor.Editor.TranslationPress | src/RasterViewer.cpp:461-506 | the hit triangle becomes the selection, then miss/release/press as above; the record is untouched |
| Editor.Editor.ColorPress | src/RasterViewer.cpp:507-512 | the hit triangle becomes the selection and its nearest vertex the paint target |
| Editor.Editor.MousePressed | src/RasterViewer.cpp:447-513 | each mode does its branch and nothing outside it changes |
| Editor.Editor.KeyPressed | src/RasterViewer.cpp:518-605 | the mode switches, then the transform key or the colour digit acts, then the viewport step |
| Editor.Editor.Redraw | src/RasterViewer.cpp:630-640 | three placed corners become one committed triangle and the construction restarts; invariant kept |

## Left out

- Rasterization (`rasterize_lines`, `rasterize_triangles`, the fragment and blending shaders) is not modelled. `raster.h` is not part of this model. Redraw models only the insertion commit. The line previews at 614-629 draw and change no state.
- The default colour, barycenter and `selected == false` of a freshly built vertex belong to the `VertexAttributes` constructor in `raster.h`. The model fixes them as constants; no proof depends on them.
- The viewer plumbing is left out, because it is I/O. This covers window set-up, callbacks, `redraw_next`, `viewer.redraw`, framebuffer clearing and copying, and console messages.
- The animation playback at 526-585 and its position snapshot in `mouse_move` at 431-436 are left out: they are a blocking, timed playback loop. In the program the playback breaks the scene invariant that `Valid()` states. The linear playback overwrites the three positions (543-545) without stamping a new barycenter. The Bézier playback builds its control point with w taken from a difference of two points, that is 0 (562-564), so the stored w becomes (1−t)² + t², which is 0.5 at t = 0.5, and the positions leave the drawing plane. Both playback branches also set `translate` to the identity (537, 567) and never restore the copy they saved.
- Editor.Editor.KeyPressed: requires that an armed animation does not receive its playback keys `n` and `b`.
- Editor.Editor.KeyPressed: requires that the selected triangle is in range while the animation is armed, since the source reads it then.
- `cos` and `sin` are parameters: the model proves no trigonometry.
- All arithmetic is exact real arithmetic. Float rounding and single/double precision conversions are not modelled.
- HitTest.NearestVertex: compares squared distances instead of `norm()`, which selects the same vertex.
- Stale indices are preconditions, not behaviour. The source does not reset `selectedTriangle`, `prevClickedTriangle` or `vertex_index` when a deletion shortens the list, and then indexes out of range. The model requires that such an index is still in range wherever the source reads it.
- Editor.Editor.MouseMove: requires that the selected triangle is in range during a drag.
- Editor.Editor.MousePressed: requires that the previously grabbed triangle is in range when a miss recolours it.
- Matrix associativity is not proved in general. The lemmas cover the products the editor forms, such as a translation applied twice and identity prefixes.
- The initial values of the record's mode tag and of the two cursor positions are parameters of the constructor, because the source never initialises them.
