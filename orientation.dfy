/**
 * The classification of a video track's preferred transform into one of the
 * four capture orientations, shared by both exporters.
 */
module Orientation {
  import opened Geometry

  datatype Orientation = Up | Down | Left | Right

  /** The pair `(orientation, isPortrait)` that `orientation(from:)` returns. */
  datatype AssetInfo = AssetInfo(orientation: Orientation, isPortrait: bool)

  /** The linear part (a, b, c, d) of `t` is exactly the given quadruple. */
  predicate LinearIs(t: Affine, a: real, b: real, c: real, d: real) {
    t.a == a && t.b == b && t.c == c && t.d == d
  }

  /**
   * `orientation(from:)`: the four capture presets are recognised by their
   * linear part; every other transform falls back to (up, not portrait).
   */
  function Classify(t: Affine): (r: AssetInfo)
    ensures r.isPortrait <==> r.orientation == Left || r.orientation == Right
  {
    if LinearIs(t, 0.0, 1.0, -1.0, 0.0) then AssetInfo(Right, true)
    else if LinearIs(t, 0.0, -1.0, 1.0, 0.0) then AssetInfo(Left, true)
    else if LinearIs(t, 1.0, 0.0, 0.0, 1.0) then AssetInfo(Up, false)
    else if LinearIs(t, -1.0, 0.0, 0.0, -1.0) then AssetInfo(Down, false)
    else AssetInfo(Up, false)
  }

  /** The four presets and what each is classified as. */
  lemma ClassifyPresets(tx: real, ty: real)
    ensures Classify(Affine(0.0, 1.0, -1.0, 0.0, tx, ty)) == AssetInfo(Right, true)
    ensures Classify(Affine(0.0, -1.0, 1.0, 0.0, tx, ty)) == AssetInfo(Left, true)
    ensures Classify(Affine(1.0, 0.0, 0.0, 1.0, tx, ty)) == AssetInfo(Up, false)
    ensures Classify(Affine(-1.0, 0.0, 0.0, -1.0, tx, ty)) == AssetInfo(Down, false)
  {
  }

  /**
   * Each orientation is reported exactly for its preset, and every transform
   * that is none of the four presets is classified as (up, not portrait).
   */
  lemma ClassifyExactly(t: Affine)
    ensures Classify(t).orientation == Right <==> LinearIs(t, 0.0, 1.0, -1.0, 0.0)
    ensures Classify(t).orientation == Left <==> LinearIs(t, 0.0, -1.0, 1.0, 0.0)
    ensures Classify(t).orientation == Down <==> LinearIs(t, -1.0, 0.0, 0.0, -1.0)
    ensures Classify(t).isPortrait <==> LinearIs(t, 0.0, 1.0, -1.0, 0.0) || LinearIs(t, 0.0, -1.0, 1.0, 0.0)
    ensures (!LinearIs(t, 0.0, 1.0, -1.0, 0.0) && !LinearIs(t, 0.0, -1.0, 1.0, 0.0)
             && !LinearIs(t, -1.0, 0.0, 0.0, -1.0)) ==> Classify(t) == AssetInfo(Up, false)
  {
  }

  /** The translation part of the transform is never inspected. */
  lemma ClassifyIgnoresTranslation(t: Affine, tx: real, ty: real)
    ensures Classify(t.(tx := tx, ty := ty)) == Classify(t)
  {
  }
}
