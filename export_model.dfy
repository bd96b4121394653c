/**
 * Values shared by both video exporters: the edited media, the source asset
 * as the exporters see it, the outcomes of the AVFoundation calls they make,
 * and the plan an export builds before it renders.
 */
module ExportModel {
  import opened Optional
  import opened Geometry

  /** An opaque bitmap handle. */
  datatype Image = Image(id: nat)

  /** A file location: the video the editor was opened on, or an export in the temporary directory. */
  datatype Url = SourceFile(path: string) | TempFile(name: string, ext: string)

  /** `MediaEditorViewController.Media`: what the editor session was opened on. */
  datatype Media = Photo(image: Image) | Video(url: Url)

  /** A `CMTimeRange`, in seconds. */
  datatype TimeRange = TimeRange(start: real, duration: real) {
    function End(): real { start + duration }
  }

  /** `AVAssetExportSession.Status`. */
  datatype ExportStatus = Unknown | Waiting | Exporting | Completed | Failed | Cancelled

  datatype Preset = MediumQuality | HighestQuality

  /** The first video track of the asset: its preferred transform and natural size. */
  datatype VideoTrack = VideoTrack(preferredTransform: Affine, naturalSize: PositiveSize)

  /** The source asset: duration in seconds, first video track if any, and whether an audio track exists. */
  datatype Asset = Asset(duration: real, videoTrack: Option<VideoTrack>, hasAudioTrack: bool)

  /**
   * What the foreign calls made during one export turn out to do:
   * whether `addMutableTrack` returned a track (video, audio), whether
   * `insertTimeRange` returned without throwing (video, audio), whether
   * `AVAssetExportSession(asset:presetName:)` returned a session, the
   * session's status when rendering ends, and the fresh UUID string used
   * as the output file name.
   */
  datatype Effects = Effects(
    videoTrackAdded: bool,
    audioTrackAdded: bool,
    videoInsertOk: bool,
    audioInsertOk: bool,
    sessionCreated: bool,
    status: ExportStatus,
    exportName: string)

  /** The frames of the four Core Animation layers an export sets up. */
  datatype Layers = Layers(background: Rect, video: Rect, overlay: Rect, output: Rect)

  /** Everything an export configures before it starts rendering. */
  datatype Plan = Plan(
    videoRange: TimeRange,
    audioRange: Option<TimeRange>,
    compositionTrackTransform: Affine,
    renderSize: Size,
    layers: Layers,
    instructionRange: TimeRange,
    layerTransform: Affine,
    frameDuration: real,
    preset: Preset,
    outputUrl: Url)

  /** Why an export stopped before rendering. */
  datatype Stage = NotVideo | AssetInvalid | CompositionFailed | NoSession

  /** One export: stopped early at a stage, or rendered a plan and ended with a status. */
  datatype Run = Aborted(stage: Stage) | Rendered(plan: Plan, status: ExportStatus)

  /** The single argument `onComplete` is called with. */
  function Delivered(run: Run): Option<Url> {
    if run.Rendered? && run.status == Completed then Some(run.plan.outputUrl) else None
  }

  /** A frame at the origin covering `size`. */
  function FullFrame(size: Size): Rect {
    Rect(0.0, 0.0, size.width, size.height)
  }

  /** `CMTimeMake(value: 1, timescale: 30)`: one frame at 30 frames per second. */
  const FrameDuration30: real := 1.0 / 30.0
}
