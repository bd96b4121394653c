/**
 * The transform the newer exporter attaches to the video layer instruction:
 * fit the track's effective width to the render width, then place it.
 */
module LayerTransform {
  import opened Geometry
  import opened Orientation

  /**
   * `scaleToFitRatio`: the factor that maps the track's effective width
   * (its natural height when portrait, else its natural width) onto the
   * render width.
   */
  function ScaleToFitRatio(info: AssetInfo, natural: PositiveSize, render: Size): (s: real)
    ensures (if info.isPortrait then s * natural.height else s * natural.width) == render.width
  {
    if info.isPortrait then render.width / natural.height else render.width / natural.width
  }

  /**
   * `videoCompositionLayerInstruction`'s transform for a track with the
   * given preferred transform and natural size, rendered at `render`.
   */
  function VideoLayerTransform(preferred: Affine, natural: PositiveSize, render: Size): Affine {
    var info := Classify(preferred);
    var s := ScaleToFitRatio(info, natural, render);
    var scale := Scale(s, s);
    if info.isPortrait then
      Concat(preferred, scale)
    else if info.orientation == Down then
      Concat(Concat(HalfTurn(), Translate(natural.width, natural.height + render.height)), scale)
    else
      var translationY := render.height / 2.0 - natural.height * s / 2.0;
      Concat(Concat(preferred, scale), Translate(0.0, translationY))
  }

  /** Portrait tracks: the preferred transform with all six entries scaled, no translation added. */
  lemma PortraitTransform(preferred: Affine, natural: PositiveSize, render: Size)
    requires Classify(preferred).isPortrait
    ensures var s := render.width / natural.height;
            VideoLayerTransform(preferred, natural, render)
            == Affine(preferred.a * s, preferred.b * s, preferred.c * s, preferred.d * s,
                      preferred.tx * s, preferred.ty * s)
  {
    ConcatScale(preferred, render.width / natural.height);
  }

  /**
   * Landscape tracks other than upside-down: scaled entries, and a vertical
   * offset that centres the scaled natural height within the render height.
   */
  lemma LandscapeTransform(preferred: Affine, natural: PositiveSize, render: Size)
    requires !Classify(preferred).isPortrait && Classify(preferred).orientation != Down
    ensures var s := render.width / natural.width;
            VideoLayerTransform(preferred, natural, render)
            == Affine(preferred.a * s, preferred.b * s, preferred.c * s, preferred.d * s,
                      preferred.tx * s, preferred.ty * s + render.height / 2.0 - natural.height * s / 2.0)
  {
    var s := render.width / natural.width;
    var scaled := Concat(preferred, Scale(s, s));
    ConcatScale(preferred, s);
    assert scaled == Affine(preferred.a * s, preferred.b * s, preferred.c * s, preferred.d * s,
                            preferred.tx * s, preferred.ty * s);
    var ty := render.height / 2.0 - natural.height * s / 2.0;
    assert VideoLayerTransform(preferred, natural, render) == Concat(scaled, Translate(0.0, ty));
  }

  /**
   * Upside-down tracks: a fixed matrix that depends only on the sizes,
   * never on the translation of the preferred transform.
   */
  lemma DownTransform(preferred: Affine, natural: PositiveSize, render: Size)
    requires Classify(preferred).orientation == Down
    ensures var s := render.width / natural.width;
            VideoLayerTransform(preferred, natural, render)
            == Affine(-s, 0.0, 0.0, -s, natural.width * s, (natural.height + render.height) * s)
  {
  }

  /**
   * An upright track (identity preferred transform) fills the render width
   * exactly and its frame is vertically centred on the render height.
   */
  lemma UprightIsCentred(natural: PositiveSize, render: Size)
    ensures var r := VideoLayerTransform(Identity, natural, render);
            var top := Apply(r, Point(0.0, 0.0));
            var bottom := Apply(r, Point(natural.width, natural.height));
            top.x == 0.0 && bottom.x == render.width && (top.y + bottom.y) / 2.0 == render.height / 2.0
  {
    var s := render.width / natural.width;
    var ty := render.height / 2.0 - natural.height * s / 2.0;
    LandscapeTransform(Identity, natural, render);
    ScaledFrame(s, ty, natural, render);
  }

  /** The frame (0, 0)-(w, h) under a uniform scale by `s` followed by a vertical shift `ty`. */
  lemma ScaledFrame(s: real, ty: real, natural: PositiveSize, render: Size)
    requires s == render.width / natural.width
    requires ty == render.height / 2.0 - natural.height * s / 2.0
    ensures var r := Affine(s, 0.0, 0.0, s, 0.0, ty);
            var top := Apply(r, Point(0.0, 0.0));
            var bottom := Apply(r, Point(natural.width, natural.height));
            top.x == 0.0 && bottom.x == render.width && (top.y + bottom.y) / 2.0 == render.height / 2.0
  {
    assert s * natural.width == render.width;
  }

  /**
   * A track recorded rotated right (preset (0, 1, -1, 0) translated by the
   * natural height) lands with its frame spanning exactly [0, render width]
   * horizontally, starting at the top edge.
   */
  lemma RightPresetFillsWidth(natural: PositiveSize, render: Size)
    ensures var r := VideoLayerTransform(Affine(0.0, 1.0, -1.0, 0.0, natural.height, 0.0), natural, render);
            var p := Apply(r, Point(0.0, 0.0));
            var q := Apply(r, Point(natural.width, natural.height));
            p == Point(render.width, 0.0) && q.x == 0.0 && q.y == natural.width * (render.width / natural.height)
  {
    var s := render.width / natural.height;
    PortraitTransform(Affine(0.0, 1.0, -1.0, 0.0, natural.height, 0.0), natural, render);
    assert natural.height * s == render.width;
  }

  /**
   * Where the upside-down correction puts the frame: its rows land between
   * s * render height and s * (natural height + render height), which is
   * not the centred placement the other landscape case computes.
   */
  lemma DownPlacement(natural: PositiveSize, render: Size)
    ensures var s := render.width / natural.width;
            var r := VideoLayerTransform(Affine(-1.0, 0.0, 0.0, -1.0, natural.width, natural.height), natural, render);
            Apply(r, Point(0.0, 0.0)) == Point(render.width, (natural.height + render.height) * s)
            && Apply(r, Point(natural.width, natural.height)) == Point(0.0, render.height * s)
  {
    var s := render.width / natural.width;
    var t := Affine(-1.0, 0.0, 0.0, -1.0, natural.width, natural.height);
    DownTransform(t, natural, render);
    var r := VideoLayerTransform(t, natural, render);
    assert r == Affine(-s, 0.0, 0.0, -s, natural.width * s, (natural.height + render.height) * s);
    assert natural.width * s == render.width;
    assert Apply(r, Point(0.0, 0.0)) == Point(natural.width * s, (natural.height + render.height) * s);
    assert Apply(r, Point(natural.width, natural.height)).y
        == -s * natural.height + (natural.height + render.height) * s
        == render.height * s;
  }
}
