/**
 * The older `exportAsVideo` (on `PhotoEditorViewController`): exports the
 * whole source video at its natural size, insets the video layer by 20
 * points, and writes a `.mov` file in the temporary directory.
 */
module PhotoExporter {
  import opened Optional
  import opened Geometry
  import opened Orientation
  import opened ExportModel
  import MediaExporter

  /** The natural size, with width and height swapped when the track is portrait. */
  function PresentationSize(track: VideoTrack): Size {
    if Classify(track.preferredTransform).isPortrait then
      Size(track.naturalSize.height, track.naturalSize.width)
    else
      track.naturalSize
  }

  /** `compositionLayerInstruction`: the track's preferred transform, as it is. */
  function CompositionLayerTransform(track: VideoTrack): Affine {
    track.preferredTransform
  }

  /** The audio track is added whenever the asset and the composition have one; there is no mute. */
  predicate IncludesAudio(asset: Asset, fx: Effects) {
    asset.hasAudioTrack && fx.audioTrackAdded
  }

  /** The whole older export, from the media check to the final status. */
  function ExportAsVideo(media: Option<Media>, asset: Asset, fx: Effects): Run {
    if media.None? || !media.value.Video? then Aborted(NotVideo)
    else if !fx.videoTrackAdded || asset.videoTrack.None? then Aborted(AssetInvalid)
    else
      var track := asset.videoTrack.value;
      var range := TimeRange(0.0, asset.duration);
      var withAudio := IncludesAudio(asset, fx);
      if !fx.videoInsertOk || (withAudio && !fx.audioInsertOk) then Aborted(CompositionFailed)
      else
        var videoSize := PresentationSize(track);
        var frame := FullFrame(videoSize);
        // the composition holds exactly the range inserted at time zero
        var compositionDuration := range.End();
        var plan := Plan(
          videoRange := range,
          audioRange := if withAudio then Some(range) else None,
          compositionTrackTransform := track.preferredTransform,
          renderSize := videoSize,
          layers := Layers(frame, Rect(20.0, 20.0, videoSize.width - 40.0, videoSize.height - 40.0), frame, frame),
          instructionRange := TimeRange(0.0, compositionDuration),
          layerTransform := CompositionLayerTransform(track),
          frameDuration := FrameDuration30,
          preset := HighestQuality,
          outputUrl := TempFile(fx.exportName, "mov"));
        if !fx.sessionCreated then Aborted(NoSession)
        else Rendered(plan, fx.status)
  }

  /**
   * `onComplete` receives the temporary `.mov` URL exactly when the media is
   * a video with a video track, every insertion succeeds, a session is
   * created and the session completes; nil otherwise.
   */
  lemma DeliversOnlyOnCompletion(media: Option<Media>, asset: Asset, fx: Effects)
    ensures var out := Delivered(ExportAsVideo(media, asset, fx));
            out.Some? <==>
              && media.Some? && media.value.Video?
              && fx.videoTrackAdded && asset.videoTrack.Some?
              && fx.videoInsertOk && (IncludesAudio(asset, fx) ==> fx.audioInsertOk)
              && fx.sessionCreated && fx.status == Completed
    ensures var out := Delivered(ExportAsVideo(media, asset, fx));
            out.Some? ==> out.value == TempFile(fx.exportName, "mov")
  {
  }

  /** Each check that fails stops the older export at its own stage, in the order the source checks them. */
  lemma EarlyExits(media: Option<Media>, asset: Asset, fx: Effects)
    ensures var run := ExportAsVideo(media, asset, fx);
            && (run == Aborted(NotVideo) <==> media.None? || media.value.Photo?)
            && (run == Aborted(AssetInvalid) <==> media.Some? && media.value.Video?
                                                  && (!fx.videoTrackAdded || asset.videoTrack.None?))
            && (run == Aborted(CompositionFailed) <==>
                  && media.Some? && media.value.Video? && fx.videoTrackAdded && asset.videoTrack.Some?
                  && (!fx.videoInsertOk || (IncludesAudio(asset, fx) && !fx.audioInsertOk)))
            && (run == Aborted(NoSession) <==>
                  && media.Some? && media.value.Video? && fx.videoTrackAdded && asset.videoTrack.Some?
                  && fx.videoInsertOk && (IncludesAudio(asset, fx) ==> fx.audioInsertOk)
                  && !fx.sessionCreated)
            && (run.Rendered? ==> run.status == fx.status)
  {
  }

  /** The render size is the natural size, swapped exactly for the two portrait presets. */
  lemma RenderSizeSwap(media: Option<Media>, asset: Asset, fx: Effects)
    requires ExportAsVideo(media, asset, fx).Rendered?
    ensures var plan := ExportAsVideo(media, asset, fx).plan;
            var track := asset.videoTrack.value;
            var t := track.preferredTransform;
            && asset.videoTrack.Some?
            && (if LinearIs(t, 0.0, 1.0, -1.0, 0.0) || LinearIs(t, 0.0, -1.0, 1.0, 0.0)
                then plan.renderSize == Size(track.naturalSize.height, track.naturalSize.width)
                else plan.renderSize == track.naturalSize)
  {
    ClassifyExactly(asset.videoTrack.value.preferredTransform);
  }

  /**
   * Background, overlay and output layers cover the render frame; the video
   * layer is that frame inset by 20 points on every side.
   */
  lemma LayerFrames(media: Option<Media>, asset: Asset, fx: Effects)
    requires ExportAsVideo(media, asset, fx).Rendered?
    ensures var plan := ExportAsVideo(media, asset, fx).plan;
            var w, h := plan.renderSize.width, plan.renderSize.height;
            var v := plan.layers.video;
            && plan.layers.background == plan.layers.overlay == plan.layers.output == Rect(0.0, 0.0, w, h)
            && v.x == 20.0 && v.y == 20.0
            && v.x + v.width == w - 20.0 && v.y + v.height == h - 20.0
  {
  }

  /**
   * The layer instruction and the composition track both carry the source
   * track's preferred transform, unchanged.
   */
  lemma TransformUnchanged(media: Option<Media>, asset: Asset, fx: Effects)
    requires ExportAsVideo(media, asset, fx).Rendered?
    ensures var plan := ExportAsVideo(media, asset, fx).plan;
            && asset.videoTrack.Some?
            && plan.layerTransform == plan.compositionTrackTransform == asset.videoTrack.value.preferredTransform
  {
  }

  /**
   * The whole asset is inserted, the instruction covers it, and the audio is
   * included exactly when a source audio track was found and added, whatever
   * the mute state of the editor.
   */
  lemma FullRange(media: Option<Media>, asset: Asset, fx: Effects)
    requires ExportAsVideo(media, asset, fx).Rendered?
    ensures var plan := ExportAsVideo(media, asset, fx).plan;
            && plan.videoRange == plan.instructionRange == TimeRange(0.0, asset.duration)
            && (plan.audioRange.Some? <==> asset.hasAudioTrack && fx.audioTrackAdded)
            && (plan.audioRange.Some? ==> plan.audioRange.value == plan.videoRange)
            && plan.preset == HighestQuality
  {
  }

  /**
   * With the trimmer unset and the editor unmuted, both exporters take the
   * same exits, insert the same ranges and deliver the same file name; they
   * differ only in the extension of that file.
   */
  lemma VariantsAgree(media: Option<Media>, asset: Asset, viewSize: Size, screenScale: real, fx: Effects)
    ensures var older := ExportAsVideo(media, asset, fx);
            var newer := MediaExporter.ExportAsVideo(media, asset, MediaExporter.TrimBounds(None, None),
                                                     false, viewSize, screenScale, fx);
            && older.Aborted? == newer.Aborted?
            && (older.Aborted? ==> older.stage == newer.stage)
            && (older.Rendered? ==>
                  older.plan.videoRange == newer.plan.videoRange
                  && older.plan.audioRange == newer.plan.audioRange)
            && (Delivered(older).Some? <==> Delivered(newer).Some?)
            && (Delivered(older).Some? ==>
                  Delivered(older) == Some(TempFile(fx.exportName, "mov"))
                  && Delivered(newer) == Some(TempFile(fx.exportName, "mp4")))
  {
  }
}
