/**
 * `MediaEditorViewController.exportAsVideo`: trims the source video,
 * optionally keeps its audio, renders at the on-screen size and writes an
 * `.mp4` file in the temporary directory.
 */
module MediaExporter {
  import opened Optional
  import opened Geometry
  import opened ExportModel
  import LayerTransform

  /** The trimmer view's handle times, each unset (nil) until the trimmer has an asset. */
  datatype TrimBounds = TrimBounds(start: Option<real>, end: Option<real>)

  /** The inserted range: trimmer start (default zero) to trimmer end (default the asset's duration). */
  function TrimRange(asset: Asset, trim: TrimBounds): TimeRange {
    var start := trim.start.GetOr(0.0);
    TimeRange(start, trim.end.GetOr(asset.duration) - start)
  }

  /** The audio track is added exactly when the editor is unmuted and the asset and composition have one. */
  predicate IncludesAudio(asset: Asset, isAudioMuted: bool, fx: Effects) {
    !isAudioMuted && asset.hasAudioTrack && fx.audioTrackAdded
  }

  /** The whole export, from the media check to the final status. */
  function ExportAsVideo(media: Option<Media>, asset: Asset, trim: TrimBounds, isAudioMuted: bool,
                         viewSize: Size, screenScale: real, fx: Effects): Run
  {
    if media.None? || !media.value.Video? then Aborted(NotVideo)
    else if !fx.videoTrackAdded || asset.videoTrack.None? then Aborted(AssetInvalid)
    else
      var track := asset.videoTrack.value;
      var range := TrimRange(asset, trim);
      var withAudio := IncludesAudio(asset, isAudioMuted, fx);
      if !fx.videoInsertOk || (withAudio && !fx.audioInsertOk) then Aborted(CompositionFailed)
      else
        var renderSize := Size(viewSize.width * screenScale, viewSize.height * screenScale);
        var frame := FullFrame(renderSize);
        var plan := Plan(
          videoRange := range,
          audioRange := if withAudio then Some(range) else None,
          compositionTrackTransform := Identity,
          renderSize := renderSize,
          layers := Layers(frame, frame, frame, frame),
          instructionRange := TimeRange(0.0, asset.duration),
          layerTransform := LayerTransform.VideoLayerTransform(track.preferredTransform, track.naturalSize, renderSize),
          frameDuration := FrameDuration30,
          preset := MediumQuality,
          outputUrl := TempFile(fx.exportName, "mp4"));
        if !fx.sessionCreated then Aborted(NoSession)
        else Rendered(plan, fx.status)
  }

  /**
   * `onComplete` receives the temporary `.mp4` URL exactly when the media
   * is a video with a video track, every insertion succeeds, a session is
   * created and the session completes; in every other case it receives nil.
   */
  lemma DeliversOnlyOnCompletion(media: Option<Media>, asset: Asset, trim: TrimBounds, isAudioMuted: bool,
                                 viewSize: Size, screenScale: real, fx: Effects)
    ensures var out := Delivered(ExportAsVideo(media, asset, trim, isAudioMuted, viewSize, screenScale, fx));
            out.Some? <==>
              && media.Some? && media.value.Video?
              && fx.videoTrackAdded && asset.videoTrack.Some?
              && fx.videoInsertOk && (IncludesAudio(asset, isAudioMuted, fx) ==> fx.audioInsertOk)
              && fx.sessionCreated && fx.status == Completed
    ensures var out := Delivered(ExportAsVideo(media, asset, trim, isAudioMuted, viewSize, screenScale, fx));
            out.Some? ==> out.value == TempFile(fx.exportName, "mp4")
  {
  }

  /**
   * The early exits: each failed check stops the export at its own stage,
   * in the order the source checks them.
   */
  lemma EarlyExits(media: Option<Media>, asset: Asset, trim: TrimBounds, isAudioMuted: bool,
                   viewSize: Size, screenScale: real, fx: Effects)
    ensures var run := ExportAsVideo(media, asset, trim, isAudioMuted, viewSize, screenScale, fx);
            && (run == Aborted(NotVideo) <==> media.None? || media.value.Photo?)
            && (run == Aborted(AssetInvalid) <==> media.Some? && media.value.Video?
                                                  && (!fx.videoTrackAdded || asset.videoTrack.None?))
            && (run == Aborted(CompositionFailed) <==>
                  && media.Some? && media.value.Video? && fx.videoTrackAdded && asset.videoTrack.Some?
                  && (!fx.videoInsertOk || (IncludesAudio(asset, isAudioMuted, fx) && !fx.audioInsertOk)))
            && (run == Aborted(NoSession) <==>
                  && media.Some? && media.value.Video? && fx.videoTrackAdded && asset.videoTrack.Some?
                  && fx.videoInsertOk && (IncludesAudio(asset, isAudioMuted, fx) ==> fx.audioInsertOk)
                  && !fx.sessionCreated)
            && (run.Rendered? ==> run.status == fx.status)
  {
  }

  /**
   * A rendered plan inserts the trimmed range at time zero, and includes the
   * audio over the same range exactly when unmuted with an audio track.
   */
  lemma RenderedRanges(media: Option<Media>, asset: Asset, trim: TrimBounds, isAudioMuted: bool,
                       viewSize: Size, screenScale: real, fx: Effects)
    requires ExportAsVideo(media, asset, trim, isAudioMuted, viewSize, screenScale, fx).Rendered?
    ensures var plan := ExportAsVideo(media, asset, trim, isAudioMuted, viewSize, screenScale, fx).plan;
            && plan.videoRange.start == trim.start.GetOr(0.0)
            && plan.videoRange.End() == trim.end.GetOr(asset.duration)
            && (plan.audioRange.Some? <==> !isAudioMuted && asset.hasAudioTrack && fx.audioTrackAdded)
            && (plan.audioRange.Some? ==> plan.audioRange.value == plan.videoRange)
  {
  }

  /**
   * The composition instruction always spans the asset's full duration, so
   * it outlasts the trimmed composition by exactly the trimmed-away time.
   */
  lemma InstructionSpansAsset(media: Option<Media>, asset: Asset, trim: TrimBounds, isAudioMuted: bool,
                              viewSize: Size, screenScale: real, fx: Effects)
    requires ExportAsVideo(media, asset, trim, isAudioMuted, viewSize, screenScale, fx).Rendered?
    ensures var plan := ExportAsVideo(media, asset, trim, isAudioMuted, viewSize, screenScale, fx).plan;
            && plan.instructionRange == TimeRange(0.0, asset.duration)
            && plan.instructionRange.duration - plan.videoRange.duration
               == trim.start.GetOr(0.0) + (asset.duration - trim.end.GetOr(asset.duration))
  {
  }

  /**
   * A rendered plan renders at the view's size times the screen scale, puts
   * every layer at the full render frame, uses the fitted layer transform,
   * 30 frames per second and the medium-quality preset.
   */
  lemma RenderedGeometry(media: Option<Media>, asset: Asset, trim: TrimBounds, isAudioMuted: bool,
                         viewSize: Size, screenScale: real, fx: Effects)
    requires ExportAsVideo(media, asset, trim, isAudioMuted, viewSize, screenScale, fx).Rendered?
    ensures var plan := ExportAsVideo(media, asset, trim, isAudioMuted, viewSize, screenScale, fx).plan;
            var track := asset.videoTrack.value;
            && asset.videoTrack.Some?
            && plan.renderSize == Size(viewSize.width * screenScale, viewSize.height * screenScale)
            && plan.layers.background == plan.layers.video == plan.layers.overlay == plan.layers.output
               == Rect(0.0, 0.0, plan.renderSize.width, plan.renderSize.height)
            && plan.layerTransform
               == LayerTransform.VideoLayerTransform(track.preferredTransform, track.naturalSize, plan.renderSize)
            && plan.compositionTrackTransform == Identity
            && plan.frameDuration * 30.0 == 1.0
            && plan.preset == MediumQuality
  {
  }
}
