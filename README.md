# Media editor core: a Dafny model

This project models the logic of the iOS photo and video editor that can be
stated exactly, and proves what it promises:

- **Orientation and layer transform** (`Orientation`, `LayerTransform`,
  over `Geometry`). `orientation(from:)` maps a video track's preferred
  transform to one of four capture orientations and a portrait flag.
  `videoCompositionLayerInstruction` computes a scale-to-fit ratio and
  concatenates affine transforms. `CGAffineTransform` is a six-entry record
  over exact rationals. Concatenation is the row-vector product, so it
  applies the left operand first.
- **The two `exportAsVideo` variants** (`MediaExporter`, `PhotoExporter`,
  over `ExportModel`). Each is a pure function from the media, the source
  asset and the outcomes of the AVFoundation calls to a `Run`. A run either
  stops at one of the early exits or renders a `Plan` and ends with a
  session status. `Delivered` gives the URL handed to `onComplete`.
  - The newer variant (`MediaEditorViewController`) inserts the trimmed
    range and drops the audio when the editor is muted. It renders at the
    on-screen size and writes `.mp4` at medium quality.
  - The older variant (`PhotoEditorViewController`) inserts the whole asset
    with its audio and swaps the size of portrait tracks. It insets the video
    layer by 20 points and writes `.mov` at the highest quality.
- **The editor session** (`Editor.MediaEditor`). This is a class whose
  fields are the controller state that the handlers update:
  - the media and the controls hidden by default;
  - the hidden flags of the control buttons, of their CircularView wrappers
    and of the panels;
  - the mute state and its two mirrors;
  - the drawing and text colours;
  - the trimmer bounds, the player position and the playback timer;
  - the calls made on the delegate.

  The controller's methods are methods of the class. `Valid()` is the
  invariant they keep: the player's mute flag and the volume button's
  selected flag equal `isAudioMuted`, and at most one timer is alive.
- **The trim-duration text** (`TrimLabel`) and **the save alert**
  (`SaveAlert`).
- **`suitableSize(limit:)`** (`ImageSize`).

The two exporters each carry their own copy of `orientation(from:)`. The two
copies are identical, so the model defines the classifier once, as
`Orientation.Classify`.

## Model

| member | source | states |
|---|---|---|
| Geometry.Concat | iOSPhotoEditor/MediaEditor+VideoExporter.swift:137 | `concatenating`, the row-vector matrix product; characterised by ConcatApply (apply the first operand, then the second), ConcatAssociative and ConcatScale |
| Geometry.ElementaryApply | iOSPhotoEditor/MediaEditor+VideoExporter.swift:131-142 | scaling multiplies each coordinate by its factor; translation adds the offsets; the exact half turn negates both coordinates |
| Geometry.ConcatApply | iOSPhotoEditor/MediaEditor+VideoExporter.swift:137 | applying `t1.concatenating(t2)` to a point is applying `t1`, then `t2` |
| Geometry.ConcatAssociative | iOSPhotoEditor/MediaEditor+VideoExporter.swift:137 | concatenation is associative, so the grouping of a chain such as `preferred.concatenating(scale).concatenating(translation)` does not matter |
| Geometry.ConcatScale | iOSPhotoEditor/MediaEditor+VideoExporter.swift:131-132 | concatenating a uniform scale by s multiplies all six entries, translation included, by s |
| Orientation.Classify | iOSPhotoEditor/MediaEditor+VideoExporter.swift:152-168 | the portrait flag holds exactly when the orientation is left or right |
| Orientation.ClassifyPresets | iOSPhotoEditor/MediaEditor+VideoExporter.swift:155-165 | (0,1,-1,0) is (right, portrait), (0,-1,1,0) is (left, portrait), (1,0,0,1) is (up, not portrait) and (-1,0,0,-1) is (down, not portrait), whatever the translation |
| Orientation.ClassifyExactly | iOSPhotoEditor/PhotoEditor+VideoExporter.swift:114-130 | right, left and down are each reported iff the linear part is their preset; portrait iff it is one of the two portrait presets; any other transform gives (up, not portrait) |
| Orientation.ClassifyIgnoresTranslation | iOSPhotoEditor/MediaEditor+VideoExporter.swift:155-164 | tx and ty never change the classification |
| LayerTransform.ScaleToFitRatio | iOSPhotoEditor/MediaEditor+VideoExporter.swift:128-130 | ratio times the natural height (portrait) or the natural width (otherwise) equals the render width |
| LayerTransform.VideoLayerTransform | iOSPhotoEditor/MediaEditor+VideoExporter.swift:122-150 | the transform `videoCompositionLayerInstruction` sets; characterised case by case by PortraitTransform, LandscapeTransform and DownTransform, and by the placement lemmas UprightIsCentred, RightPresetFillsWidth and DownPlacement |
| LayerTransform.PortraitTransform | iOSPhotoEditor/MediaEditor+VideoExporter.swift:129-132 | for a portrait track the result is the preferred transform with all six entries multiplied by renderWidth/naturalHeight, and no translation is added |
| LayerTransform.LandscapeTransform | iOSPhotoEditor/MediaEditor+VideoExporter.swift:134-137 | for a landscape track that is not upside down, the entries are scaled by s = renderWidth/naturalWidth and ty becomes ty·s + renderHeight/2 − naturalHeight·s/2 |
| LayerTransform.DownTransform | iOSPhotoEditor/MediaEditor+VideoExporter.swift:138-144 | an upside-down track gets exactly (−s, 0, 0, −s, naturalWidth·s, (naturalHeight + renderHeight)·s), independent of the preferred transform's translation |
| LayerTransform.UprightIsCentred | iOSPhotoEditor/MediaEditor+VideoExporter.swift:134-137 | an upright track's frame spans x from 0 to the render width and is centred vertically on the render height |
| LayerTransform.RightPresetFillsWidth | iOSPhotoEditor/MediaEditor+VideoExporter.swift:129-132 | a track recorded rotated right spans exactly [0, render width] horizontally, starting at the top edge |
| LayerTransform.DownPlacement | iOSPhotoEditor/MediaEditor+VideoExporter.swift:138-144 | the upside-down correction places the frame between y = s·renderHeight and y = s·(naturalHeight + renderHeight) |
| ExportModel.Delivered | iOSPhotoEditor/MediaEditor+VideoExporter.swift:99-111 | the argument passed to `onComplete` by a run that reaches the session; characterised by the DeliversOnlyOnCompletion lemmas of both exporters |
| MediaExporter.ExportAsVideo | iOSPhotoEditor/MediaEditor+VideoExporter.swift:14-116 | the newer `exportAsVideo` as a run; characterised by DeliversOnlyOnCompletion, EarlyExits, RenderedRanges, InstructionSpansAsset and RenderedGeometry |
| MediaExporter.DeliversOnlyOnCompletion | iOSPhotoEditor/MediaEditor+VideoExporter.swift:14-116 | `onComplete` gets a URL iff the media is a video, a video track exists and was added, every insertion succeeds, a session is created and its status is completed; the URL is then the temporary `<name>.mp4` |
| MediaExporter.EarlyExits | iOSPhotoEditor/MediaEditor+VideoExporter.swift:15-88 | each exit is taken exactly when its check is the first to fail: non-video media at the media check; a video track that is missing or not added at the asset check; a video insertion that throws, or an audio insertion that throws when audio is included, at the `catch`; a missing session at the session check; a rendered run reports the session's status |
| MediaExporter.RenderedRanges | iOSPhotoEditor/MediaEditor+VideoExporter.swift:28-38 | the inserted range runs from the trimmer start (default 0) to the trimmer end (default the asset duration); audio is inserted over the same range iff unmuted and an audio track exists and was added |
| MediaExporter.InstructionSpansAsset | iOSPhotoEditor/MediaEditor+VideoExporter.swift:49-51 | the composition instruction covers [0, asset duration) and outlasts the trimmed composition by exactly the trimmed-away time |
| MediaExporter.RenderedGeometry | iOSPhotoEditor/MediaEditor+VideoExporter.swift:45-83 | the render size is the view size times the screen scale; all four layers are at the full render frame; the layer transform is the fitted one; the frame duration is 1/30 s; the preset is medium quality |
| PhotoExporter.ExportAsVideo | iOSPhotoEditor/PhotoEditor+VideoExporter.swift:12-112 | the older `exportAsVideo` as a run; characterised by DeliversOnlyOnCompletion, EarlyExits, RenderSizeSwap, LayerFrames, TransformUnchanged, FullRange and VariantsAgree |
| PhotoExporter.PresentationSize | iOSPhotoEditor/PhotoEditor+VideoExporter.swift:44-49 | the natural size, swapped for portrait tracks; characterised by RenderSizeSwap |
| PhotoExporter.CompositionLayerTransform | iOSPhotoEditor/PhotoEditor+VideoExporter.swift:148-155 | the preferred transform, unchanged; characterised by TransformUnchanged |
| PhotoExporter.DeliversOnlyOnCompletion | iOSPhotoEditor/PhotoEditor+VideoExporter.swift:12-112 | `onComplete` gets a URL iff every check passes and the session completes; the URL is then the temporary `<name>.mov` |
| PhotoExporter.EarlyExits | iOSPhotoEditor/PhotoEditor+VideoExporter.swift:13-85 | the same four exits as the newer exporter, each taken exactly when its check is the first to fail, with audio included whenever a track exists and was added |
| PhotoExporter.RenderSizeSwap | iOSPhotoEditor/PhotoEditor+VideoExporter.swift:42-49 | the render size is the natural size, with width and height swapped exactly for the two portrait presets |
| PhotoExporter.LayerFrames | iOSPhotoEditor/PhotoEditor+VideoExporter.swift:51-67 | background, overlay and output frames are (0,0,w,h); the video layer is inset 20 points on every side |
| PhotoExporter.TransformUnchanged | iOSPhotoEditor/PhotoEditor+VideoExporter.swift:148-155 | the layer instruction's transform is the source track's preferred transform, unchanged, and the composition track carries the same one (line 41) |
| PhotoExporter.FullRange | iOSPhotoEditor/PhotoEditor+VideoExporter.swift:27-34 | the whole asset [0, duration) is inserted and covered by the instruction; audio is included iff an audio track exists and was added, with no mute check; the preset is highest quality |
| PhotoExporter.VariantsAgree | iOSPhotoEditor/PhotoEditor+VideoExporter.swift:12-112 | with the trimmer unset and the editor unmuted, the older and newer exporters take the same exits, insert the same ranges, and deliver the same name, as `.mov` and `.mp4` respectively |
| TrimLabel.RoundToNearest | iOSPhotoEditor/MediaEditorViewController.swift:235 | `rounded()` gives the integer nearest to x, with halves rounded away from zero |
| TrimLabel.Digits | iOSPhotoEditor/MediaEditorViewController.swift:237 | the decimal rendering of a natural number is non-empty, all digits, and has no leading zero |
| TrimLabel.ParseDigits | iOSPhotoEditor/MediaEditorViewController.swift:237 | the decimal digits of n read back as n |
| TrimLabel.ParseIntString | iOSPhotoEditor/MediaEditorViewController.swift:236-237 | the interpolation of an `Int`, sign included, reads back as that integer |
| TrimLabel.TrimmingDuration | iOSPhotoEditor/MediaEditorViewController.swift:232-238 | the `trimmingDuration` text; characterised by TrimmingDurationReadsBack |
| TrimLabel.TrimmingDurationReadsBack | iOSPhotoEditor/MediaEditorViewController.swift:232-238 | the text is "N sec", where N reads back as (end − start) rounded to the nearest whole second, with a missing bound counting as zero, and N is within half a second of that length |
| SaveAlert.SaveAlert | iOSPhotoEditor/MediaEditor+Controls.swift:229-239 | the title and message of the save alert; characterised by SaveAlertCases and SaveAlertDistinguishes |
| SaveAlert.SaveAlertCases | iOSPhotoEditor/MediaEditor+Controls.swift:229-239 | the alert is ("Success", "<Photo/Video> saved") iff saved with no error, and otherwise ("Error", "Failed to save <Photo/Video>") |
| SaveAlert.SaveAlertDistinguishes | iOSPhotoEditor/MediaEditor+Controls.swift:229-239 | two equal alerts come from the same outcome and the same media kind |
| ImageSize.SuitableSize | iOSPhotoEditor/UIImage+Size.swift:21-32 | a width limit sets the width to the limit and keeps the height within the screen height; a height limit sets the height to the limit and keeps the width within the screen width |
| ImageSize.WidthLimited | iOSPhotoEditor/UIImage+Size.swift:24-26 | the height never exceeds the screen height or the proportional height; it equals the screen height or keeps the aspect ratio; it keeps the aspect ratio whenever the proportional height fits |
| ImageSize.HeightLimited | iOSPhotoEditor/UIImage+Size.swift:27-29 | the width never exceeds the screen width or the proportional width; it equals the screen width or keeps the aspect ratio; it keeps the aspect ratio whenever the proportional width fits |
| Editor.HideAll | iOSPhotoEditor/MediaEditor+Controls.swift:246-311 | every listed control ends up not visible; every unlisted control keeps its visibility; no hidden flag is ever cleared |
| Editor.HideAllSnoc | iOSPhotoEditor/MediaEditor+Controls.swift:247-309 | handling one more control hides its CircularView wrapper when it has one, and its own button otherwise |
| Editor.HideAllIdempotent | iOSPhotoEditor/MediaEditor+Controls.swift:246-311 | hiding the same list twice gives the same flags as hiding it once |
| Editor.MediaEditor.ForImage | iOSPhotoEditor/MediaEditorViewController.swift:103-109 | `makeForImage` sets photo media and default hidden controls [trim, volume]; every other field has its declared initial value, and the invariant holds |
| Editor.MediaEditor.ForVideo | iOSPhotoEditor/MediaEditorViewController.swift:111-117 | `makeForVideo` sets video media and default hidden controls [crop, marker]; every other field has its declared initial value, and the invariant holds |
| Editor.MediaEditor.SetHiddenControls | iOSPhotoEditor/MediaEditorViewController.swift:64 | the host replaces the public list of controls to hide; nothing else changes |
| Editor.MediaEditor.HideControls | iOSPhotoEditor/MediaEditor+Controls.swift:246-311 | the loop over `hiddenControls + defaultHiddenControls` leaves exactly the flags `HideAll` describes, and changes nothing else |
| Editor.MediaEditor.SetAudioMuted | iOSPhotoEditor/MediaEditorViewController.swift:88-93 | after an assignment to `isAudioMuted`, the player's mute flag and the volume button's selected flag both equal it |
| Editor.MediaEditor.VolumeButtonTapped | iOSPhotoEditor/MediaEditor+Controls.swift:88-90 | the tap flips `isAudioMuted`, and the mirrors follow |
| Editor.MediaEditor.DidSelectColor | iOSPhotoEditor/MediaEditorViewController.swift:244-251 | while drawing, only the drawing colour changes; otherwise, with an active text view, the text colour and the view's colour change; otherwise nothing changes |
| Editor.MediaEditor.HideToolbar | iOSPhotoEditor/MediaEditorViewController.swift:201-206 | both toolbars and both gradients take the same hidden flag, and no other panel changes |
| Editor.MediaEditor.DrawButtonTapped | iOSPhotoEditor/MediaEditor+Controls.swift:72-78 | drawing starts, canvas interaction is disabled, the done button and the colour picker show, and the toolbars hide |
| Editor.MediaEditor.MarkerButtonTapped | iOSPhotoEditor/MediaEditor+Controls.swift:80-86 | the drawing colour becomes white, drawing starts, canvas interaction is disabled, the done button shows and the toolbars hide |
| Editor.MediaEditor.DoneButtonTapped | iOSPhotoEditor/MediaEditor+Controls.swift:113-123 | drawing stops and the drawing colour returns to its initial value; canvas interaction is re-enabled; the done button, colour picker and trimmer hide and the toolbars show |
| Editor.MediaEditor.TrimButtonTapped | iOSPhotoEditor/MediaEditor+Controls.swift:51-65 | for a video, the trimmer and the done button show, the toolbars hide, the maximum duration becomes the asset duration − 0.05 s and the label shows the trimmed length; for a photo, nothing changes |
| Editor.MediaEditor.CancelButtonTapped | iOSPhotoEditor/MediaEditor+Controls.swift:36-39 | the delegate is told editing was cancelled, and the editor is dismissed |
| Editor.MediaEditor.ContinueButtonPressed | iOSPhotoEditor/MediaEditor+Controls.swift:181-199 | a photo hands the canvas image to the delegate and dismisses; a video hands over the export URL only when there is one, but dismisses either way, and the loader is hidden again; with no media nothing happens |
| Editor.MediaEditor.ShowLoader | iOSPhotoEditor/MediaEditor+Controls.swift:334-336 | the activity indicator is shown |
| Editor.MediaEditor.HideLoader | iOSPhotoEditor/MediaEditor+Controls.swift:338-340 | the activity indicator is hidden |
| Editor.MediaEditor.SetTrimBounds | iOSPhotoEditor/MediaEditorViewController.swift:215 | the trimmer's start and end times take the values it reports |
| Editor.MediaEditor.StopPlaybackPeriodicObserver | iOSPhotoEditor/MediaEditorViewController.swift:227-230 | any running timer is invalidated and dropped, so no timer is alive |
| Editor.MediaEditor.StartPlaybackPeriodicObserver | iOSPhotoEditor/MediaEditorViewController.swift:208-212 | the running timer, if any, is stopped before a new one is scheduled, so exactly one timer is alive |
| Editor.MediaEditor.PlaybackTick | iOSPhotoEditor/MediaEditorViewController.swift:212-224 | with a trim bound unset, nothing moves; otherwise the trimmer follows the playback time, and once that reaches the end, the player and the trimmer both jump to the start; before the end the player is not moved |
| Editor.MediaEditor.DidChangePositionBar | iOSPhotoEditor/MediaEditorViewController.swift:256-261 | dragging stops the timer, pauses the player, seeks it to the bar's time and refreshes the duration text |
| Editor.MediaEditor.PositionBarStoppedMoving | iOSPhotoEditor/MediaEditorViewController.swift:263-267 | releasing seeks the player to the bar's time, plays it and restarts the timer |
| Editor.MediaEditor.ViewDidAppear | iOSPhotoEditor/MediaEditorViewController.swift:162-167 | a video session starts playing; a photo session changes nothing |
| Editor.MediaEditor.ViewDidDisappear | iOSPhotoEditor/MediaEditorViewController.swift:169-175 | a video session pauses the player and leaves no timer alive; a photo session changes nothing |
| Editor.VolumeTwiceRestores | iOSPhotoEditor/MediaEditor+Controls.swift:88-90 | two taps on the volume button restore the mute state and its mirrors |
| Editor.HideControlsTwice | iOSPhotoEditor/MediaEditor+Controls.swift:246-311 | running `hideControls` twice leaves the same flags as running it once |

## Left out

- AVFoundation internals are not modelled: compositions, `insertTimeRange`, the export session and its asynchronous completion. What those calls return is a parameter of each exporter (`ExportModel.Effects`): whether tracks were added, whether insertions threw, whether a session was created, the final status, and the fresh file name.
- Rendering is not modelled. This covers `add(image:to:)` in both exporters, the aspect-fill overlay and `UIImageView.layerImage`. Only the layer frames are kept.
- The older exporter's red background colour is not modelled.
- Floating point is not modelled: geometry and times are exact rationals. The rotation by π is taken as the exact half turn. `orientation(from:)` compares doubles with `==`, and that becomes exact equality.
- LayerTransform.ScaleToFitRatio requires positive natural sizes. The source divides by the natural size and would produce infinities or NaN for an empty track.
- PhotoExporter.ExportAsVideo and MediaExporter.ExportAsVideo take the video track's natural size as positive, because `ExportModel.VideoTrack` holds it as a positive size. The older exporter never divides by it, so the model does not cover the older exporter for zero-sized tracks.
- PhotoExporter.ExportAsVideo takes the composition's duration, which sets the instruction range, to be the end of the range inserted at time zero (the asset's duration). AVFoundation computes that duration, and the model does not derive it.
- ImageSize.SuitableSize requires a positive image size, for the same reason.
- Timers, players and the player clock are not modelled. The timer tick takes the player's current time as a parameter. Seeks, play and pause are recorded as the last seek time and a playing flag. Only the existence of the timer is tracked, not its scheduling.
- The `[weak self]` guards in the timer and the export completion are not modelled: the controller is assumed to be alive.
- Editor.MediaEditor.ContinueButtonPressed runs the export's completion at once. Its outcome is a parameter (`exported`), not a call into the exporter. This is because the export needs the view size, the screen scale and the effects of AVFoundation.
- Saving to the photo library is not modelled: `saveButtonTapped`, authorization requests, the alert shown for missing access, and the presentation of the save alert. Only the rule that chooses the alert's title and message is modelled.
- The crop, sticker, text, clear and share handlers are not modelled: they present other controllers or edit the view hierarchy.
- Keyboard notifications, gesture recognizers, `viewDidLoad`, `configureCollectionView`, `setupContinueButton` and font registration are UI set-up and are not modelled. The storyboard's initial state is a parameter of the factories (`Storyboard`): the hidden panels, the control flags, which buttons sit in a CircularView, and canvas interaction. The volume button is taken to start unselected.
- The trimmer view's own logic is not modelled. `Editor.MediaEditor.SetTrimBounds` stands for it reporting new handle times. `TrimButtonTapped` reads the trim bounds as they are when it assigns the asset; any reset the trimmer does on that assignment is not modelled.
- `view.endEditing(true)` in `doneButtonTapped` is not modelled: ending text editing belongs to the text-view delegate, which is not part of this model.
- TrimLabel.RoundToNearest: the conversion `Int(duration)` is not bounded. The source traps when the rounded value exceeds the range of `Int`.
- Delegate calls are recorded as events. The names the controls extension calls differ from those declared in `Protocols.swift`, and `Protocols.swift` is not part of this model.
- `PhotoEditorViewController.swift` is the older controller and is not part of this model, except for its `exportAsVideo`. It calls a `suitableSize(widthLimit:)` that `UIImage+Size.swift` does not define.
- Cosmetic and declaration files are not part of this model: `CircularImageView.swift`, `CircularButton.swift`, `RoundedCornerView.swift`, `VideoPlayer.swift` and the example app.
- UUID generation, `NSTemporaryDirectory` and `FileManager.removeFileIfNecessary` are file-system I/O and are not modelled. The output URL is `TempFile(name, extension)`, with the name a parameter.
