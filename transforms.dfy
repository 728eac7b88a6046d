/** The updates of the uniform record made by the transform keys of the
    translation mode (`performTranslationAction`, with the matrix updates of
    `translateTriangle`, `scaleTriangle` and `rotateTriangle`) and by the zoom
    and pan keys (`changeViewport`). Each new matrix multiplies the old one from
    the left: new * old. */
module Transforms {
  import opened Geometry
  import opened Scene

  const ScaleStep := 0.25
  /** Ten degrees, as the literal the editor uses. */
  const RotateStep := 0.17453292519
  const ZoomStep := 0.2
  const PanStep := 0.2

  /** `k` scale up, `l` scale down, `h` rotate clockwise, `j` rotate counter-clockwise. */
  predicate IsTransformKey(key: char) {
    key == 'k' || key == 'l' || key == 'h' || key == 'j'
  }

  /** `W` zoom in, `V` zoom out, `w` pan down, `s` pan up, `a` pan right, `d` pan left. */
  predicate IsViewportKey(key: char) {
    key == 'W' || key == 'V' || key == 'w' || key == 's' || key == 'a' || key == 'd'
  }

  /** The matrix part of `translateTriangle`: a translation by the record's
      pending offset joins the translate matrix; nothing else changes. */
  function TranslateUniform(u: Uniform): (r: Uniform)
    ensures r == u.(translate := r.translate)
    ensures PlanarUniform(u) ==> PlanarUniform(r)
  {
    u.(translate := Mul(TranslationMatrix(u.translateDelta.x, u.translateDelta.y), u.translate))
  }

  /** Drags accumulate: a translate matrix that is a pure translation stays one,
      by the sum of the old offset and the pending one. */
  lemma TranslateAccumulates(u: Uniform, a: real, b: real)
    requires u.translate == TranslationMatrix(a, b)
    ensures TranslateUniform(u).translate == TranslationMatrix(a + u.translateDelta.x, b + u.translateDelta.y)
  {
    TranslationCompose(u.translateDelta.x, u.translateDelta.y, a, b);
  }

  /** The matrix part of `scaleTriangle`: a uniform scaling by the record's
      current factor joins the scale matrix; nothing else changes. */
  function ScaleUniform(u: Uniform): (r: Uniform)
    ensures r == u.(scale := r.scale)
    ensures PlanarUniform(u) ==> PlanarUniform(r)
    ensures FixesOrigin(u.scale) ==> FixesOrigin(r.scale)
  {
    u.(scale := Mul(ScaleMatrix(u.scaleFactor), u.scale))
  }

  /** Scalings accumulate: a scale matrix that is a uniform scaling by `a` becomes
      one by `a` times the current factor. */
  lemma ScaleAccumulates(u: Uniform, a: real)
    requires u.scale == ScaleMatrix(a)
    ensures ScaleUniform(u).scale == ScaleMatrix(u.scaleFactor * a)
  {
    ScaleCompose(u.scaleFactor, a, u.scaleFactor * a);
  }

  /** The matrix part of `rotateTriangle`: a rotation by the record's current
      angle joins the rotate matrix; nothing else changes. `cos` and `sin` stand
      for the C library functions. */
  function RotateUniform(u: Uniform, cos: real -> real, sin: real -> real): (r: Uniform)
    ensures r == u.(rotate := r.rotate)
    ensures PlanarUniform(u) ==> PlanarUniform(r)
    ensures FixesOrigin(u.rotate) ==> FixesOrigin(r.rotate)
  {
    u.(rotate := Mul(RotationMatrix(cos(u.rotateRadians), sin(u.rotateRadians)), u.rotate))
  }

  /** Rotations accumulate: a rotate matrix that is a rotation with cosine `c`
      and sine `s` stays one, by the sum of the two angles. */
  lemma RotateAccumulates(u: Uniform, cos: real -> real, sin: real -> real, c: real, s: real)
    requires u.rotate == RotationMatrix(c, s)
    ensures var c1, s1 := cos(u.rotateRadians), sin(u.rotateRadians);
            RotateUniform(u, cos, sin).rotate == RotationMatrix(c1 * c - s1 * s, s1 * c + c1 * s)
  {
    RotationCompose(cos(u.rotateRadians), sin(u.rotateRadians), c, s);
  }

  /** The factor after `k`: a shrinking factor first snaps back to 1. */
  function ScaledUp(f: real): (r: real)
    ensures r >= 1.0 + ScaleStep
    ensures f >= 1.0 ==> r == f + ScaleStep
    ensures f < 1.0 ==> r == 1.0 + ScaleStep
  {
    (if f < 1.0 then 1.0 else f) + ScaleStep
  }

  /** The factor after `l`: a growing factor first snaps back to 1. */
  function ScaledDown(f: real): (r: real)
    ensures r <= 1.0 - ScaleStep
    ensures f <= 1.0 ==> r == f - ScaleStep
    ensures f > 1.0 ==> r == 1.0 - ScaleStep
  {
    (if f > 1.0 then 1.0 else f) - ScaleStep
  }

  /** The angle after `h`: a negative angle first snaps back to 0. */
  function TurnedClockwise(a: real): (r: real)
    ensures r >= RotateStep
    ensures a >= 0.0 ==> r == a + RotateStep
    ensures a < 0.0 ==> r == RotateStep
  {
    (if a < 0.0 then 0.0 else a) + RotateStep
  }

  /** The angle after `j`: a positive angle first snaps back to 0. */
  function TurnedCounterClockwise(a: real): (r: real)
    ensures r <= -RotateStep
    ensures a <= 0.0 ==> r == a - RotateStep
    ensures a > 0.0 ==> r == -RotateStep
  {
    (if a > 0.0 then 0.0 else a) - RotateStep
  }

  /** `performTranslationAction`: the key becomes the mode tag, the factor or
      angle takes one step, and the scale or rotate matrix takes it in; any other
      key changes nothing. */
  function TransformAction(u: Uniform, key: char, cos: real -> real, sin: real -> real): (r: Uniform)
    ensures !IsTransformKey(key) ==> r == u
    ensures key == 'k' ==> r == ScaleUniform(u.(scaleFactor := ScaledUp(u.scaleFactor), mode := key))
    ensures key == 'l' ==> r == ScaleUniform(u.(scaleFactor := ScaledDown(u.scaleFactor), mode := key))
    ensures key == 'h' ==> r == RotateUniform(u.(rotateRadians := TurnedClockwise(u.rotateRadians), mode := key), cos, sin)
    ensures key == 'j' ==> r == RotateUniform(u.(rotateRadians := TurnedCounterClockwise(u.rotateRadians), mode := key), cos, sin)
    ensures IsTransformKey(key) ==>
      r.mode == key && r.view == u.view && r.translate == u.translate && r.translateDelta == u.translateDelta
    ensures PlanarUniform(u) ==> PlanarUniform(r)
  {
    if key == 'k' then
      ScaleUniform(u.(scaleFactor := ScaledUp(u.scaleFactor), mode := key))
    else if key == 'l' then
      ScaleUniform(u.(scaleFactor := ScaledDown(u.scaleFactor), mode := key))
    else if key == 'h' then
      RotateUniform(u.(rotateRadians := TurnedClockwise(u.rotateRadians), mode := key), cos, sin)
    else if key == 'j' then
      RotateUniform(u.(rotateRadians := TurnedCounterClockwise(u.rotateRadians), mode := key), cos, sin)
    else
      u
  }

  /** From the neutral factor, three scale-down presses give 0.75, 0.5 and 0.25. */
  lemma ScaleDownThrice(u: Uniform, cos: real -> real, sin: real -> real)
    requires u.scaleFactor == 1.0
    ensures var u1 := TransformAction(u, 'l', cos, sin);
            var u2 := TransformAction(u1, 'l', cos, sin);
            var u3 := TransformAction(u2, 'l', cos, sin);
            u1.scaleFactor == 0.75 && u2.scaleFactor == 0.5 && u3.scaleFactor == 0.25
  {
  }

  /** Reversing direction never carries the old excess along: whatever the
      factor or angle was, one press the other way lands exactly one step on the
      far side of neutral. */
  lemma ReversalSnapsToNeutral(u: Uniform, cos: real -> real, sin: real -> real)
    ensures TransformAction(TransformAction(u, 'k', cos, sin), 'l', cos, sin).scaleFactor == 1.0 - ScaleStep
    ensures TransformAction(TransformAction(u, 'l', cos, sin), 'k', cos, sin).scaleFactor == 1.0 + ScaleStep
    ensures TransformAction(TransformAction(u, 'h', cos, sin), 'j', cos, sin).rotateRadians == -RotateStep
    ensures TransformAction(TransformAction(u, 'j', cos, sin), 'h', cos, sin).rotateRadians == RotateStep
  {
  }

  /** Scale presses compound: a scale matrix that is a uniform scaling by `a`
      stays one, by `a` times the new factor. From rest (`a` = 1), two `k`
      presses therefore scale by 1.25 * 1.5. */
  lemma ScaleKeysCompound(u: Uniform, key: char, a: real, cos: real -> real, sin: real -> real)
    requires key == 'k' || key == 'l'
    requires u.scale == ScaleMatrix(a)
    ensures var r := TransformAction(u, key, cos, sin);
            r.scale == ScaleMatrix(r.scaleFactor * a)
  {
    var f := if key == 'k' then ScaledUp(u.scaleFactor) else ScaledDown(u.scaleFactor);
    ScaleAccumulates(u.(scaleFactor := f, mode := key), a);
  }

  /** Rotate presses compound: a rotate matrix that is a rotation with cosine `c`
      and sine `s` stays one, by the angle-addition formulas with the new angle. */
  lemma RotateKeysCompound(u: Uniform, key: char, c: real, s: real, cos: real -> real, sin: real -> real)
    requires key == 'h' || key == 'j'
    requires u.rotate == RotationMatrix(c, s)
    ensures var r := TransformAction(u, key, cos, sin);
            var c1, s1 := cos(r.rotateRadians), sin(r.rotateRadians);
            r.rotate == RotationMatrix(c1 * c - s1 * s, s1 * c + c1 * s)
  {
    var a := if key == 'h' then TurnedClockwise(u.rotateRadians) else TurnedCounterClockwise(u.rotateRadians);
    RotateAccumulates(u.(rotateRadians := a, mode := key), cos, sin, c, s);
  }

  /** The step matrix of a zoom or pan key: zoom saturates toward 1 and the pan
      offset toward 0 before taking a step of 0.2. */
  function ViewStep(key: char, zoom: real, delta: real): (m: Mat4)
    requires IsViewportKey(key)
    ensures Planar(m)
    ensures key == 'W' ==> m == ScaleMatrix(ScaledUpBy(zoom, ZoomStep))
    ensures key == 'V' ==> m == ScaleMatrix(ScaledDownBy(zoom, ZoomStep))
    ensures key == 'w' ==> m == TranslationMatrix(0.0, ShiftedDown(delta))
    ensures key == 's' ==> m == TranslationMatrix(0.0, ShiftedUp(delta))
    ensures key == 'a' ==> m == TranslationMatrix(ShiftedUp(delta), 0.0)
    ensures key == 'd' ==> m == TranslationMatrix(ShiftedDown(delta), 0.0)
  {
    match key
    case 'W' => ScaleMatrix(ScaledUpBy(zoom, ZoomStep))
    case 'V' => ScaleMatrix(ScaledDownBy(zoom, ZoomStep))
    case 'w' => TranslationMatrix(0.0, ShiftedDown(delta))
    case 's' => TranslationMatrix(0.0, ShiftedUp(delta))
    case 'a' => TranslationMatrix(ShiftedUp(delta), 0.0)
    case 'd' => TranslationMatrix(ShiftedDown(delta), 0.0)
  }

  /** The record after `changeViewport(key, zoom, delta, ...)`: the step matrix
      multiplies the view from the left and the key becomes the mode tag; any
      other key leaves the record, tag included, as it was. */
  function ViewportChange(u: Uniform, key: char, zoom: real, delta: real): (r: Uniform)
    ensures !IsViewportKey(key) ==> r == u
    ensures IsViewportKey(key) ==> r == u.(mode := key, view := Mul(ViewStep(key, zoom, delta), u.view))
    ensures PlanarUniform(u) ==> PlanarUniform(r)
  {
    if IsViewportKey(key) then u.(mode := key, view := Mul(ViewStep(key, zoom, delta), u.view)) else u
  }

  /** The zoom factor after `W`: below 1 it first snaps back to 1. */
  function ScaledUpBy(z: real, step: real): (r: real)
    ensures r >= 1.0 + step
    ensures z >= 1.0 ==> r == z + step
    ensures z < 1.0 ==> r == 1.0 + step
  {
    (if z < 1.0 then 1.0 else z) + step
  }

  /** The zoom factor after `V`: above 1 it first snaps back to 1. */
  function ScaledDownBy(z: real, step: real): (r: real)
    ensures r <= 1.0 - step
    ensures z <= 1.0 ==> r == z - step
    ensures z > 1.0 ==> r == 1.0 - step
  {
    (if z > 1.0 then 1.0 else z) - step
  }

  /** The pan offset after `w` or `d`: a positive offset first snaps back to 0. */
  function ShiftedDown(d: real): (r: real)
    ensures r <= -PanStep
    ensures d <= 0.0 ==> r == d - PanStep
    ensures d > 0.0 ==> r == -PanStep
  {
    (if d > 0.0 then 0.0 else d) - PanStep
  }

  /** The pan offset after `s` or `a`: a negative offset first snaps back to 0. */
  function ShiftedUp(d: real): (r: real)
    ensures r >= PanStep
    ensures d >= 0.0 ==> r == d + PanStep
    ensures d < 0.0 ==> r == PanStep
  {
    (if d < 0.0 then 0.0 else d) + PanStep
  }

  /** As the key handler calls it, with zoom 1 and offset 0, every zoom and pan
      is one fixed step: zoom by 1.2 or 0.8, pan by 0.2 in normalised units. */
  lemma ViewportFromKeyHandler()
    ensures ViewStep('W', 1.0, 0.0) == ScaleMatrix(1.2)
    ensures ViewStep('V', 1.0, 0.0) == ScaleMatrix(0.8)
    ensures ViewStep('w', 1.0, 0.0) == TranslationMatrix(0.0, -0.2)
    ensures ViewStep('s', 1.0, 0.0) == TranslationMatrix(0.0, 0.2)
    ensures ViewStep('a', 1.0, 0.0) == TranslationMatrix(0.2, 0.0)
    ensures ViewStep('d', 1.0, 0.0) == TranslationMatrix(-0.2, 0.0)
  {
  }

  /** Zoom presses compound: a view that is a uniform scaling by `a` stays one,
      by 1.2 * a after `W` and by 0.8 * a after `V`. */
  lemma ZoomKeysCompound(u: Uniform, key: char, a: real)
    requires key == 'W' || key == 'V'
    requires u.view == ScaleMatrix(a)
    ensures ViewportChange(u, key, 1.0, 0.0).view == ScaleMatrix((if key == 'W' then 1.2 else 0.8) * a)
  {
    var f := if key == 'W' then 1.2 else 0.8;
    assert ViewStep(key, 1.0, 0.0) == ScaleMatrix(f);
    ScaleCompose(f, a, f * a);
  }

  /** Panning one way and back restores the view exactly. */
  lemma PanRoundTrip(u: Uniform)
    ensures ViewportChange(ViewportChange(u, 'w', 1.0, 0.0), 's', 1.0, 0.0).view == u.view
    ensures ViewportChange(ViewportChange(u, 'a', 1.0, 0.0), 'd', 1.0, 0.0).view == u.view
  {
    ViewportFromKeyHandler();
    TranslateTwice(0.0, 0.2, 0.0, -0.2, u.view);
    TranslateTwice(-0.2, 0.0, 0.2, 0.0, u.view);
    assert TranslationMatrix(0.0, 0.0) == Identity();
  }
}
