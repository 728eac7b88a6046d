/** The editor's state and its event handlers: the variables the handlers of
    the viewer share by reference, the three input callbacks (cursor motion,
    button press, key press), the insertion commit of the redraw callback, and
    the helper procedures they call. Each handler changes the fields its frame
    names and no others. Pixel coordinates arrive as integers and are mapped to
    normalised device coordinates first; `cos` and `sin` stand for the C library
    functions. */
module Editor {
  import opened Geometry
  import opened Scene
  import opened Modes
  import opened HitTest
  import opened Transforms

  class Editor {
    var currentMode: Mode
    /** Corners placed for the triangle under construction. */
    var numOfClicks: nat
    /** The rubber-band preview: the first placed corner, then earlier cursor
        positions and placed corners, ending with the latest cursor position
        or placed corner. */
    var lines: seq<Vertex>
    /** The placed corners of the triangle under construction. */
    var triangleVertices: seq<Vertex>
    /** Committed triangles, three vertices each. */
    var triangles: seq<Vertex>
    var uniform: Uniform
    var selectedTriangle: int
    var prevClickedTriangle: int
    var oldPosition: Vec4
    var newPosition: Vec4
    var isClicked: bool
    var isCursorMoving: bool
    var firstTime: bool
    /** The vertex the colour keys paint, or -1. */
    var vertexIndex: int
    var animationMode: bool

    /** The invariant every modelled handler keeps: a well-formed triangle list, one
        pending corner per click, all of them in the drawing plane (the preview
        is at least as long as the pending list, though a cursor motion may have
        replaced its last placed corner), and matrices that keep the plane. */
    ghost predicate Valid()
      reads this
    {
      && WellFormedScene(triangles)
      && |triangleVertices| == numOfClicks <= |lines|
      && (forall k :: 0 <= k < |triangleVertices| ==> IsPlanarPoint(triangleVertices[k].position))
      && PlanarUniform(uniform)
    }

    /** The start-up state. The record's mode tag and the two cursor positions
        are never initialised by the editor, so they are parameters. */
    constructor(tag: char, oldPos: Vec4, newPos: Vec4)
      ensures Valid()
      ensures currentMode == Insertion && numOfClicks == 0
      ensures lines == [] && triangleVertices == [] && triangles == []
      ensures uniform == InitialUniform(tag)
      ensures selectedTriangle == -1 && prevClickedTriangle == -1 && vertexIndex == -1
      ensures !isClicked && !isCursorMoving && firstTime && !animationMode
      ensures oldPosition == oldPos && newPosition == newPos
    {
      currentMode := Insertion;
      numOfClicks := 0;
      lines, triangleVertices, triangles := [], [], [];
      uniform := InitialUniform(tag);
      selectedTriangle, prevClickedTriangle, vertexIndex := -1, -1, -1;
      isClicked, isCursorMoving, firstTime, animationMode := false, false, true, false;
      oldPosition, newPosition := oldPos, newPos;
    }

    /** `setCurrentMode`. */
    method SetCurrentMode(key: char)
      requires Valid()
      modifies this`currentMode
      ensures Valid()
      ensures currentMode == ModeAfterKey(key, old(currentMode))
      ensures IsModeKey(key) ==> key in KeysOf(currentMode)
    {
      if key == 'i' {
        currentMode := Insertion;
      } else if key == 'o' {
        currentMode := Translation;
      } else if key == 'p' {
        currentMode := Deletion;
      } else if key == 'c' {
        currentMode := Color;
      } else if key == 'm' {
        currentMode := Translation;
      }
    }

    /** `translateTriangle`: flags the triangle at `i` as selected and lets the
        translate matrix take in the pending offset. */
    method TranslateTriangle(i: int)
      requires Valid() && 0 <= i && i + 2 < |triangles|
      modifies this`triangles, this`uniform
      ensures Valid()
      ensures triangles == MarkSelected(old(triangles), i)
      ensures uniform == TranslateUniform(old(uniform))
    {
      triangles := MarkSelected(triangles, i);
      SameGeometryKeepsWellFormed(old(triangles), triangles);
      var step := TranslationMatrix(uniform.translateDelta.x, uniform.translateDelta.y);
      uniform := uniform.(translate := Mul(step, uniform.translate));
    }

    /** `scaleTriangle`: flags the triangle at `i` as selected and lets the
        scale matrix take in the current factor. */
    method ScaleTriangle(i: int)
      requires Valid() && 0 <= i && i + 2 < |triangles|
      modifies this`triangles, this`uniform
      ensures Valid()
      ensures triangles == MarkSelected(old(triangles), i)
      ensures uniform == ScaleUniform(old(uniform))
    {
      triangles := MarkSelected(triangles, i);
      SameGeometryKeepsWellFormed(old(triangles), triangles);
      uniform := uniform.(scale := Mul(ScaleMatrix(uniform.scaleFactor), uniform.scale));
    }

    /** `rotateTriangle`: flags the triangle at `i` as selected and lets the
        rotate matrix take in the current angle. */
    method RotateTriangle(i: int, cos: real -> real, sin: real -> real)
      requires Valid() && 0 <= i && i + 2 < |triangles|
      modifies this`triangles, this`uniform
      ensures Valid()
      ensures triangles == MarkSelected(old(triangles), i)
      ensures uniform == RotateUniform(old(uniform), cos, sin)
    {
      triangles := MarkSelected(triangles, i);
      SameGeometryKeepsWellFormed(old(triangles), triangles);
      var c, s := cos(uniform.rotateRadians), sin(uniform.rotateRadians);
      uniform := uniform.(rotate := Mul(RotationMatrix(c, s), uniform.rotate));
    }

    /** `performTranslationAction`: a transform key steps the factor or angle,
        becomes the mode tag and transforms the triangle at `i`; any other key
        does nothing. Only a transform key reads the triangle. */
    method PerformTranslationAction(key: char, i: int, cos: real -> real, sin: real -> real)
      requires Valid()
      requires IsTransformKey(key) ==> 0 <= i && i + 2 < |triangles|
      modifies this`triangles, this`uniform
      ensures Valid()
      ensures uniform == TransformAction(old(uniform), key, cos, sin)
      ensures triangles == if IsTransformKey(key) then MarkSelected(old(triangles), i) else old(triangles)
    {
      if key == 'k' {
        if uniform.scaleFactor < 1.0 {
          uniform := uniform.(scaleFactor := 1.0);
        }
        uniform := uniform.(scaleFactor := uniform.scaleFactor + ScaleStep, mode := 'k');
        ScaleTriangle(i);
      } else if key == 'l' {
        if uniform.scaleFactor > 1.0 {
          uniform := uniform.(scaleFactor := 1.0);
        }
        uniform := uniform.(scaleFactor := uniform.scaleFactor - ScaleStep, mode := 'l');
        ScaleTriangle(i);
      } else if key == 'h' {
        if uniform.rotateRadians < 0.0 {
          uniform := uniform.(rotateRadians := 0.0);
        }
        uniform := uniform.(rotateRadians := uniform.rotateRadians + RotateStep, mode := 'h');
        RotateTriangle(i, cos, sin);
      } else if key == 'j' {
        if uniform.rotateRadians > 0.0 {
          uniform := uniform.(rotateRadians := 0.0);
        }
        uniform := uniform.(rotateRadians := uniform.rotateRadians - RotateStep, mode := 'j');
        RotateTriangle(i, cos, sin);
      }
    }

    /** The effect of a deletion click: the first triangle hit is erased and
        the whole record, view included, is reset; a click that hits nothing
        changes neither. */
    twostate predicate Deleted(x: real, y: real)
      reads this
    {
      var before, hit := old(triangles), FirstHitFrom(old(triangles), old(uniform), x, y, 0);
      if hit >= 0 then
        hit + 2 < |before| && triangles == EraseTriangle(before, hit) && uniform == ResetUniform(old(uniform))
      else
        triangles == before && uniform == old(uniform)
    }

    /** `deleteTriangle`: the first triangle hit by the click is erased and the
        whole record, view included, is reset; a click that hits nothing
        changes nothing. */
    method DeleteTriangle(x: real, y: real)
      requires Valid()
      modifies this`triangles, this`uniform
      ensures Valid()
      ensures Deleted(x, y)
      ensures PendingKept()
      ensures selectedTriangle == old(selectedTriangle) && vertexIndex == old(vertexIndex) && GrabKept()
    {
      var index := GetSelectedTriangleIndex(triangles, uniform, x, y);
      if index >= 0 {
        EraseKeepsWellFormed(triangles, index);
        triangles := triangles[..index] + triangles[index + 3..];
        uniform := uniform.(view := Identity(), translate := Identity(), rotate := Identity(), scale := Identity());
        uniform := uniform.(scaleFactor := 1.0, rotateRadians := 0.0, translateDelta := Zero);
      }
    }

    /** `changeViewport`: a zoom or pan key multiplies the view by one step and
        becomes the mode tag; any other key leaves the record, tag included. */
    method ChangeViewport(key: char, zoom: real, delta: real)
      requires Valid()
      modifies this`uniform
      ensures Valid()
      ensures uniform == ViewportChange(old(uniform), key, zoom, delta)
    {
      var tempKey := uniform.mode;
      uniform := uniform.(mode := key);
      var z, d := zoom, delta;
      if key == 'W' {
        if z < 1.0 { z := 1.0; }
        z := z + ZoomStep;
        uniform := uniform.(view := Mul(ScaleMatrix(z), uniform.view));
      } else if key == 'V' {
        if z > 1.0 { z := 1.0; }
        z := z - ZoomStep;
        uniform := uniform.(view := Mul(ScaleMatrix(z), uniform.view));
      } else if key == 'w' {
        if d > 0.0 { d := 0.0; }
        d := d - PanStep;
        uniform := uniform.(view := Mul(TranslationMatrix(0.0, d), uniform.view));
      } else if key == 's' {
        if d < 0.0 { d := 0.0; }
        d := d + PanStep;
        uniform := uniform.(view := Mul(TranslationMatrix(0.0, d), uniform.view));
      } else if key == 'a' {
        if d < 0.0 { d := 0.0; }
        d := d + PanStep;
        uniform := uniform.(view := Mul(TranslationMatrix(d, 0.0), uniform.view));
      } else if key == 'd' {
        if d > 0.0 { d := 0.0; }
        d := d - PanStep;
        uniform := uniform.(view := Mul(TranslationMatrix(d, 0.0), uniform.view));
      } else {
        uniform := uniform.(mode := tempKey);
      }
    }

    /** `mouse_move`. In insertion mode, while a triangle is under way, the
        cursor replaces whatever the last preview entry is, a cursor point or
        the corner placed last (or is appended when the preview holds at most
        one entry). In translation mode, while a selected triangle
        is held, the offset from the previous cursor position becomes the
        pending offset and moves the triangle. The drag reads the selected
        triangle, so a stale index must still be in range. */
    method MouseMove(px: int, py: int)
      requires Valid()
      requires currentMode == Translation && isClicked && selectedTriangle >= 0 ==> selectedTriangle + 2 < |triangles|
      modifies this`lines, this`triangles, this`uniform, this`oldPosition, this`newPosition,
               this`isCursorMoving, this`firstTime
      ensures Valid()
      ensures var cursor := PointVertex(NdcX(px), NdcY(py));
        if currentMode == Insertion && numOfClicks % 3 != 0 then
          && lines == (if |old(lines)| > 1 then old(lines)[..|old(lines)| - 1] else old(lines)) + [cursor]
          && lines[|lines| - 1] == cursor
          && (|old(lines)| > 0 ==> lines[0] == old(lines)[0])
        else lines == old(lines)
      ensures var p := Vec4(NdcX(px), NdcY(py), 0.0, 1.0);
        if currentMode == Translation && isClicked && selectedTriangle >= 0 then
          && isCursorMoving && !firstTime
          && newPosition == p && oldPosition == p
          && uniform == TranslateUniform(old(uniform).(translateDelta := Sub(p, old(oldPosition)), mode := 'o'))
          && triangles == MarkSelected(old(triangles), selectedTriangle)
        else
          && triangles == old(triangles) && uniform == old(uniform)
          && oldPosition == old(oldPosition) && newPosition == old(newPosition)
          && isCursorMoving == old(isCursorMoving) && firstTime == old(firstTime)
    {
      var x, y := NdcX(px), NdcY(py);
      if currentMode == Insertion {
        if numOfClicks % 3 != 0 {
          if |lines| > 1 {
            lines := lines[..|lines| - 1];
          }
          lines := lines + [PointVertex(x, y)];
        }
      } else if currentMode == Translation {
        if isClicked && selectedTriangle >= 0 {
          isCursorMoving := true;
          newPosition := Vec4(x, y, 0.0, 1.0);
          uniform := uniform.(translateDelta := Sub(newPosition, oldPosition));
          oldPosition := newPosition;
          firstTime := false;
          uniform := uniform.(mode := 'o');
          TranslateTriangle(selectedTriangle);
        }
      }
    }

    /** The lists of the triangle under construction are as they were. */
    twostate predicate PendingKept()
      reads this
    {
      lines == old(lines) && triangleVertices == old(triangleVertices) && numOfClicks == old(numOfClicks)
    }

    /** The grab state of the translation mode is as it was. */
    twostate predicate GrabKept()
      reads this
    {
      && prevClickedTriangle == old(prevClickedTriangle) && isClicked == old(isClicked)
      && isCursorMoving == old(isCursorMoving) && oldPosition == old(oldPosition) && firstTime == old(firstTime)
    }

    /** The effect of a press in insertion mode: a release places a corner,
        both in the preview and in the pending list. */
    twostate predicate InsertionPressed(px: int, py: int, mouseButtonUp: bool)
      reads this
    {
      var v := PointVertex(NdcX(px), NdcY(py));
      if mouseButtonUp then
        lines == old(lines) + [v] && triangleVertices == old(triangleVertices) + [v] && numOfClicks == old(numOfClicks) + 1
      else
        PendingKept()
    }

    /** The effect of a press in translation mode. The hit triangle becomes the
        selection. A miss ungrabs the previously grabbed triangle and paints it
        blue (if there is one). A press on a triangle highlights and grabs it
        and records the cursor. A release lets go; after a drag it also resets
        the motion flags and takes over the last cursor position. */
    twostate predicate TranslationPressed(px: int, py: int, mouseButtonUp: bool)
      reads this
    {
      var hit := FirstHitFrom(old(triangles), old(uniform), NdcX(px), NdcY(py), 0);
      && selectedTriangle == hit
      && (hit < 0 && old(prevClickedTriangle) >= 0 ==>
            && old(prevClickedTriangle) + 2 < |old(triangles)|
            && triangles == SetTriangleColor(old(triangles), old(prevClickedTriangle), Blue)
            && !isClicked && !isCursorMoving && prevClickedTriangle == -1
            && oldPosition == old(oldPosition) && firstTime == old(firstTime))
      && (hit < 0 && old(prevClickedTriangle) < 0 ==> triangles == old(triangles) && GrabKept())
      && (hit >= 0 && mouseButtonUp ==>
            && triangles == old(triangles) && prevClickedTriangle == old(prevClickedTriangle) && !isClicked
            && if old(isClicked) && old(isCursorMoving)
               then !isCursorMoving && oldPosition == old(newPosition) && firstTime
               else isCursorMoving == old(isCursorMoving) && oldPosition == old(oldPosition) && firstTime == old(firstTime))
      && (hit >= 0 && !mouseButtonUp ==>
            && hit + 2 < |old(triangles)|
            && triangles == SetTriangleColor(old(triangles), hit, Highlight)
            && oldPosition == Vec4(NdcX(px), NdcY(py), 0.0, 1.0)
            && prevClickedTriangle == hit && isClicked
            && isCursorMoving == old(isCursorMoving) && firstTime == old(firstTime))
    }

    /** The effect of a press in colour mode: the hit triangle becomes the
        selection and, when there is one, its vertex nearest to the cursor
        becomes the one the digit keys paint. */
    twostate predicate ColorPressed(px: int, py: int)
      reads this
    {
      var hit := FirstHitFrom(old(triangles), old(uniform), NdcX(px), NdcY(py), 0);
      && selectedTriangle == hit
      && vertexIndex == if hit >= 0
                        then NearestVertex(old(triangles), old(uniform), hit, Vec4(NdcX(px), NdcY(py), 0.0, 1.0))
                        else old(vertexIndex)
    }

    /** The insertion branch of `mouse_pressed`. */
    method InsertionPress(px: int, py: int, mouseButtonUp: bool)
      requires Valid()
      modifies this`lines, this`triangleVertices, this`numOfClicks
      ensures Valid()
      ensures InsertionPressed(px, py, mouseButtonUp)
      ensures triangles == old(triangles) && uniform == old(uniform)
      ensures selectedTriangle == old(selectedTriangle) && vertexIndex == old(vertexIndex) && GrabKept()
    {
      if mouseButtonUp {
        var x, y := NdcX(px), NdcY(py);
        lines := lines + [PointVertex(x, y)];
        triangleVertices := triangleVertices + [PointVertex(x, y)];
        numOfClicks := numOfClicks + 1;
      }
    }

    /** A click on empty space: the previously grabbed triangle turns blue
        again and the grab ends. */
    method Ungrab()
      requires Valid() && 0 <= prevClickedTriangle && prevClickedTriangle + 2 < |triangles|
      modifies this`triangles, this`prevClickedTriangle, this`isClicked, this`isCursorMoving
      ensures Valid()
      ensures triangles == SetTriangleColor(old(triangles), old(prevClickedTriangle), Blue)
      ensures !isClicked && !isCursorMoving && prevClickedTriangle == -1
      ensures oldPosition == old(oldPosition) && firstTime == old(firstTime)
      ensures PendingKept() && uniform == old(uniform) && vertexIndex == old(vertexIndex)
    {
      triangles := SetTriangleColor(triangles, prevClickedTriangle, Blue);
      SameGeometryKeepsWellFormed(old(triangles), triangles);
      isClicked := false;
      isCursorMoving := false;
      prevClickedTriangle := -1;
    }

    /** A release over a triangle lets go of the grab; after a drag the motion
        flags are reset and the last cursor position is taken over. */
    method Release()
      requires Valid()
      modifies this`isClicked, this`isCursorMoving, this`oldPosition, this`firstTime
      ensures Valid()
      ensures !isClicked
      ensures if old(isClicked) && old(isCursorMoving)
              then !isCursorMoving && oldPosition == old(newPosition) && firstTime
              else isCursorMoving == old(isCursorMoving) && oldPosition == old(oldPosition) && firstTime == old(firstTime)
      ensures triangles == old(triangles) && prevClickedTriangle == old(prevClickedTriangle)
      ensures PendingKept() && uniform == old(uniform) && vertexIndex == old(vertexIndex)
    {
      if isClicked {
        if isCursorMoving {
          isClicked := false;
          isCursorMoving := false;
          oldPosition := newPosition;
          firstTime := true;
        } else {
          isClicked := false;
        }
      }
    }

    /** A press on the triangle at `hit`: it is highlighted and grabbed, and
        the cursor position is recorded as the start of a drag. */
    method Grab(hit: int, x: real, y: real)
      requires Valid() && 0 <= hit && hit + 2 < |triangles|
      modifies this`triangles, this`prevClickedTriangle, this`isClicked, this`oldPosition
      ensures Valid()
      ensures triangles == SetTriangleColor(old(triangles), hit, Highlight)
      ensures oldPosition == Vec4(x, y, 0.0, 1.0) && prevClickedTriangle == hit && isClicked
      ensures isCursorMoving == old(isCursorMoving) && firstTime == old(firstTime)
      ensures PendingKept() && uniform == old(uniform) && vertexIndex == old(vertexIndex)
    {
      oldPosition := Vec4(x, y, 0.0, 1.0);
      prevClickedTriangle := hit;
      triangles := SetTriangleColor(triangles, hit, Highlight);
      SameGeometryKeepsWellFormed(old(triangles), triangles);
      isClicked := true;
    }

    /** The translation branch of `mouse_pressed`. A miss reads the previously
        grabbed triangle, which a deletion may have made stale, so it must
        still be in range. */
    method TranslationPress(px: int, py: int, mouseButtonUp: bool)
      requires Valid()
      requires prevClickedTriangle >= 0 && FirstHitFrom(triangles, uniform, NdcX(px), NdcY(py), 0) < 0
               ==> prevClickedTriangle + 2 < |triangles|
      modifies this`triangles, this`selectedTriangle, this`prevClickedTriangle, this`isClicked,
               this`isCursorMoving, this`oldPosition, this`firstTime
      ensures Valid()
      ensures TranslationPressed(px, py, mouseButtonUp)
      ensures PendingKept() && uniform == old(uniform) && vertexIndex == old(vertexIndex)
    {
      var x, y := NdcX(px), NdcY(py);
      selectedTriangle := GetSelectedTriangleIndex(triangles, uniform, x, y);
      if selectedTriangle < 0 {
        if prevClickedTriangle >= 0 {
          Ungrab();
        }
      } else if mouseButtonUp {
        Release();
      } else {
        Grab(selectedTriangle, x, y);
      }
    }

    /** The colour branch of `mouse_pressed`. */
    method ColorPress(px: int, py: int)
      requires Valid()
      modifies this`selectedTriangle, this`vertexIndex
      ensures Valid()
      ensures ColorPressed(px, py)
      ensures PendingKept() && triangles == old(triangles) && uniform == old(uniform) && GrabKept()
    {
      var x, y := NdcX(px), NdcY(py);
      selectedTriangle := GetSelectedTriangleIndex(triangles, uniform, x, y);
      if selectedTriangle >= 0 {
        vertexIndex := NearestVertex(triangles, uniform, selectedTriangle, Vec4(x, y, 0.0, 1.0));
      }
    }

    /** `mouse_pressed`: the press goes to the branch of the current mode and
        nothing outside that branch changes. */
    method MousePressed(px: int, py: int, mouseButtonUp: bool)
      requires Valid()
      requires currentMode == Translation && prevClickedTriangle >= 0
               && FirstHitFrom(triangles, uniform, NdcX(px), NdcY(py), 0) < 0
               ==> prevClickedTriangle + 2 < |triangles|
      modifies this`lines, this`triangleVertices, this`numOfClicks, this`triangles, this`uniform,
               this`selectedTriangle, this`prevClickedTriangle, this`isClicked, this`isCursorMoving,
               this`oldPosition, this`firstTime, this`vertexIndex
      ensures Valid()
      ensures old(currentMode) == Insertion ==>
        && InsertionPressed(px, py, mouseButtonUp)
        && triangles == old(triangles) && uniform == old(uniform)
        && selectedTriangle == old(selectedTriangle) && vertexIndex == old(vertexIndex) && GrabKept()
      ensures old(currentMode) == Deletion ==>
        && Deleted(NdcX(px), NdcY(py)) && PendingKept()
        && selectedTriangle == old(selectedTriangle) && vertexIndex == old(vertexIndex) && GrabKept()
      ensures old(currentMode) == Translation ==>
        && TranslationPressed(px, py, mouseButtonUp) && PendingKept()
        && uniform == old(uniform) && vertexIndex == old(vertexIndex)
      ensures old(currentMode) == Color ==>
        && ColorPressed(px, py) && PendingKept()
        && triangles == old(triangles) && uniform == old(uniform) && GrabKept()
    {
      if currentMode == Insertion {
        InsertionPress(px, py, mouseButtonUp);
      } else if currentMode == Deletion {
        DeleteTriangle(NdcX(px), NdcY(py));
      } else if currentMode == Translation {
        TranslationPress(px, py, mouseButtonUp);
      } else {
        ColorPress(px, py);
      }
    }

    /** `key_pressed`: the key first switches the mode; `m` also arms the
        animation. In translation mode a transform key acts on the selected
        triangle; in colour mode a digit paints the chosen vertex with the ramp
        colour. Finally the key goes to `changeViewport` with zoom 1 and offset
        0. While the animation is armed every key reads the selected triangle,
        so it must exist; the playback keys themselves are not part of this
        model. A transform key or a digit reads a possibly stale index, which
        must still be in range. */
    method KeyPressed(key: char, cos: real -> real, sin: real -> real)
      requires Valid()
      requires key == 'm' || animationMode ==>
        0 <= selectedTriangle && selectedTriangle + 2 < |triangles| && key != 'n' && key != 'b'
      requires ModeAfterKey(key, currentMode) == Translation && selectedTriangle >= 0 && IsTransformKey(key) ==>
        selectedTriangle + 2 < |triangles|
      requires ModeAfterKey(key, currentMode) == Color && IsDigitKey(key) && vertexIndex >= 0 ==>
        vertexIndex < |triangles|
      modifies this`currentMode, this`animationMode, this`triangles, this`uniform
      ensures Valid()
      ensures currentMode == ModeAfterKey(key, old(currentMode))
      ensures animationMode == (old(animationMode) || key == 'm')
      ensures var acting := currentMode == Translation && selectedTriangle >= 0;
        uniform == ViewportChange(if acting then TransformAction(old(uniform), key, cos, sin) else old(uniform), key, 1.0, 0.0)
      ensures triangles ==
        if currentMode == Translation && selectedTriangle >= 0 && IsTransformKey(key) then
          MarkSelected(old(triangles), selectedTriangle)
        else if currentMode == Color && IsDigitKey(key) && vertexIndex >= 0 then
          old(triangles)[vertexIndex := old(triangles)[vertexIndex].(color := RampColor(key))]
        else
          old(triangles)
    {
      SetCurrentMode(key);
      if key == 'm' {
        animationMode := true;
      }
      if currentMode == Translation {
        if selectedTriangle >= 0 {
          PerformTranslationAction(key, selectedTriangle, cos, sin);
        }
      } else if currentMode == Color {
        if '1' <= key <= '9' {
          if vertexIndex >= 0 {
            var val := (key as int - '1' as int) as real * 0.1;
            triangles := triangles[vertexIndex := triangles[vertexIndex].(color := Vec4(val, val + 0.1, val + 0.2, 1.0))];
            SameGeometryKeepsWellFormed(old(triangles), triangles);
          }
        }
      }
      ChangeViewport(key, 1.0, 0.0);
    }

    /** The insertion commit of `redraw`: once three corners are placed they
        become a blue triangle stamped with its barycenter at the end of the
        list, and the construction starts over. Otherwise the state is left as
        it is (drawing is not part of this model). */
    method Redraw()
      requires Valid()
      modifies this`numOfClicks, this`triangleVertices, this`triangles, this`lines
      ensures Valid()
      ensures if currentMode == Insertion && old(numOfClicks) == 3 then
          && triangles == old(triangles) + CommitTriangle(old(triangleVertices))
          && numOfClicks == 0 && triangleVertices == [] && lines == []
        else
          && triangles == old(triangles) && numOfClicks == old(numOfClicks)
          && triangleVertices == old(triangleVertices) && lines == old(lines)
      ensures |triangles| / 3 == old(|triangles|) / 3 + (if currentMode == Insertion && old(numOfClicks) == 3 then 1 else 0)
    {
      if currentMode == Insertion {
        if numOfClicks == 3 {
          numOfClicks := 0;
          CommitKeepsWellFormed(triangles, triangleVertices);
          triangles := triangles + CommitTriangle(triangleVertices);
          triangleVertices := [];
          lines := [];
        }
      }
    }
  }
}
