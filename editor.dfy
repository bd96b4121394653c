/**
 * The editor session (`MediaEditorViewController` and its controls
 * extension) as a state machine: which controls and panels are hidden, the
 * mute state and its two mirrors, drawing and text colours, the trimmer and
 * preview-player bookkeeping, and the events sent to the delegate.
 */
module Editor {
  import opened Optional
  import opened ExportModel
  import TrimLabel

  /** `Control`: the buttons a host can ask the editor to hide. */
  datatype Control = Crop | Trim | Sticker | Draw | Marker | Volume | Text | Save | Share | Clear

  /** The other views whose `isHidden` flag the editor sets. */
  datatype Panel =
    | TopToolbar | TopGradient | BottomToolbar | BottomGradient
    | DoneButton | ColorPicker | TrimmerContainer | ActivityIndicator

  /** The four views `hideToolbar(hide:)` sets together. */
  const Toolbars: set<Panel> := {TopToolbar, TopGradient, BottomToolbar, BottomGradient}

  /** A `UIColor`: the two the editor names, or one picked from the palette. */
  datatype Color = Black | White | Palette(index: nat)

  /** Calls made on the editor's delegate. */
  datatype DelegateEvent = DoneEditing(image: Image) | DoneEditingVideo(url: Url) | CanceledEditing

  /** Hidden flags of the control buttons, and of the CircularView wrappers some of them sit in. */
  datatype ControlFlags = ControlFlags(buttons: set<Control>, wrappers: set<Control>)

  /** A control shows unless its button is hidden or it sits in a wrapper that is hidden. */
  predicate Visible(f: ControlFlags, c: Control, wrapped: set<Control>) {
    c !in f.buttons && !(c in wrapped && c in f.wrappers)
  }

  /**
   * The effect of `hideControls` over the list `cs`: each listed control
   * has its wrapper hidden when it sits in one, and its own button otherwise.
   */
  function HideAll(f: ControlFlags, cs: seq<Control>, wrapped: set<Control>): (r: ControlFlags)
    ensures forall c :: c in cs ==> !Visible(r, c, wrapped)
    ensures forall c :: c !in cs ==> Visible(r, c, wrapped) == Visible(f, c, wrapped)
    ensures f.buttons <= r.buttons && f.wrappers <= r.wrappers
  {
    ControlFlags(f.buttons + (set c | c in cs && c !in wrapped),
                 f.wrappers + (set c | c in cs && c in wrapped))
  }

  /** Hiding the same list twice is hiding it once. */
  lemma HideAllIdempotent(f: ControlFlags, cs: seq<Control>, wrapped: set<Control>)
    ensures HideAll(HideAll(f, cs, wrapped), cs, wrapped) == HideAll(f, cs, wrapped)
  {
  }

  /** Hiding a list one more control at a time: the step the loop of `hideControls` takes. */
  lemma HideAllSnoc(f: ControlFlags, cs: seq<Control>, c: Control, wrapped: set<Control>)
    ensures var g := HideAll(f, cs, wrapped);
            HideAll(f, cs + [c], wrapped)
            == if c in wrapped then g.(wrappers := g.wrappers + {c}) else g.(buttons := g.buttons + {c})
  {
    var l, g := HideAll(f, cs + [c], wrapped), HideAll(f, cs, wrapped);
    if c in wrapped {
      assert l.wrappers == g.wrappers + {c};
      assert l.buttons == g.buttons;
    } else {
      assert l.buttons == g.buttons + {c};
      assert l.wrappers == g.wrappers;
    }
  }

  /** What the storyboard decides and the model cannot see: initial visibility and CircularView wrappers. */
  datatype Storyboard = Storyboard(
    hiddenPanels: set<Panel>,
    controls: ControlFlags,
    wrapped: set<Control>,
    canvasInteractionEnabled: bool)

  class MediaEditor {
    var media: Option<Media>
    /** The public list of controls the host wants hidden. */
    var hiddenControls: seq<Control>
    /** The controls hidden for the media kind, set by the factory. */
    var defaultHiddenControls: seq<Control>
    /** The controls whose button sits inside a CircularView. */
    const wrapped: set<Control>
    var controls: ControlFlags
    var hiddenPanels: set<Panel>
    var canvasInteractionEnabled: bool

    var isAudioMuted: bool
    /** `queuePlayer.isMuted`. */
    var playerMuted: bool
    /** `volumeButton.isSelected`. */
    var volumeButtonSelected: bool

    var isDrawing: bool
    var drawColor: Color
    var drawColorInitial: Color
    var textColor: Color
    /** The text colour of the active text view; None when no text view is active. */
    var activeTextView: Option<Color>

    /** `trimmerView.startTime` and `endTime`, in seconds. */
    var trimStart: Option<real>
    var trimEnd: Option<real>
    /** The time the trimmer's position bar was last moved to. */
    var trimmerPosition: real
    var trimMaxDuration: Option<real>
    var trimDurationText: string

    /** The time the preview player was last asked to seek to. */
    var playerSeekTime: real
    var playerPlaying: bool
    /** `playbackTimer != nil`. */
    var hasPlaybackTimer: bool
    /** Scheduled timers not yet invalidated. */
    ghost var liveTimers: nat

    var events: seq<DelegateEvent>
    var dismissed: bool

    /**
     * The player's mute flag and the volume button mirror `isAudioMuted`,
     * and the only live timer is the one `playbackTimer` holds.
     */
    ghost predicate Valid()
      reads this
    {
      && playerMuted == isAudioMuted
      && volumeButtonSelected == isAudioMuted
      && liveTimers == (if hasPlaybackTimer then 1 else 0)
    }

    /** The state every factory leaves apart from the media and its default hidden controls. */
    ghost predicate FactoryDefaults(board: Storyboard)
      reads this
    {
      && hiddenControls == [] && wrapped == board.wrapped && controls == board.controls
      && hiddenPanels == board.hiddenPanels && canvasInteractionEnabled == board.canvasInteractionEnabled
      && !isAudioMuted && !isDrawing
      && drawColor == Black && drawColorInitial == Black && textColor == White && activeTextView == None
      && trimStart == None && trimEnd == None && trimMaxDuration == None
      && !playerPlaying && !hasPlaybackTimer && events == [] && !dismissed
    }

    /** `makeForImage`: a photo session that hides the trim and volume controls. */
    constructor ForImage(image: Image, board: Storyboard)
      ensures Valid() && FactoryDefaults(board)
      ensures media == Some(Photo(image)) && defaultHiddenControls == [Trim, Volume]
    {
      media := Some(Photo(image));
      defaultHiddenControls := [Trim, Volume];
      hiddenControls := [];
      wrapped := board.wrapped;
      controls := board.controls;
      hiddenPanels := board.hiddenPanels;
      canvasInteractionEnabled := board.canvasInteractionEnabled;
      isAudioMuted, playerMuted, volumeButtonSelected := false, false, false;
      isDrawing := false;
      drawColor, drawColorInitial, textColor := Black, Black, White;
      activeTextView := None;
      trimStart, trimEnd, trimmerPosition, trimMaxDuration := None, None, 0.0, None;
      trimDurationText := "";
      playerSeekTime, playerPlaying := 0.0, false;
      hasPlaybackTimer, liveTimers := false, 0;
      events, dismissed := [], false;
    }

    /** `makeForVideo`: a video session that hides the crop and marker controls. */
    constructor ForVideo(url: Url, board: Storyboard)
      ensures Valid() && FactoryDefaults(board)
      ensures media == Some(Video(url)) && defaultHiddenControls == [Crop, Marker]
    {
      media := Some(Video(url));
      defaultHiddenControls := [Crop, Marker];
      hiddenControls := [];
      wrapped := board.wrapped;
      controls := board.controls;
      hiddenPanels := board.hiddenPanels;
      canvasInteractionEnabled := board.canvasInteractionEnabled;
      isAudioMuted, playerMuted, volumeButtonSelected := false, false, false;
      isDrawing := false;
      drawColor, drawColorInitial, textColor := Black, Black, White;
      activeTextView := None;
      trimStart, trimEnd, trimmerPosition, trimMaxDuration := None, None, 0.0, None;
      trimDurationText := "";
      playerSeekTime, playerPlaying := 0.0, false;
      hasPlaybackTimer, liveTimers := false, 0;
      events, dismissed := [], false;
    }

    predicate IsVideo()
      reads this
    {
      media.Some? && media.value.Video?
    }

    /** The host assigns the public `hiddenControls` list. */
    method SetHiddenControls(cs: seq<Control>)
      modifies this`hiddenControls
      ensures hiddenControls == cs
    {
      hiddenControls := cs;
    }

    /**
     * `hideControls`: walks `hiddenControls + defaultHiddenControls` and
     * hides each control's wrapper, or its button when it has none.
     */
    method HideControls()
      modifies this`controls
      ensures controls == HideAll(old(controls), hiddenControls + defaultHiddenControls, wrapped)
    {
      var all := hiddenControls + defaultHiddenControls;
      var i := 0;
      while i < |all|
        invariant 0 <= i <= |all|
        invariant controls == HideAll(old(controls), all[..i], wrapped)
      {
        var c := all[i];
        HideAllSnoc(old(controls), all[..i], c, wrapped);
        if c in wrapped {
          controls := controls.(wrappers := controls.wrappers + {c});
        } else {
          controls := controls.(buttons := controls.buttons + {c});
        }
        assert all[..i + 1] == all[..i] + [c];
        i := i + 1;
      }
      assert all[..i] == all;
    }

    /** Assigning `isAudioMuted`: its `didSet` copies the value to the player and the volume button. */
    method SetAudioMuted(muted: bool)
      requires Valid()
      modifies this`isAudioMuted, this`playerMuted, this`volumeButtonSelected
      ensures Valid()
      ensures isAudioMuted == muted && playerMuted == muted && volumeButtonSelected == muted
    {
      isAudioMuted := muted;
      playerMuted := isAudioMuted;
      volumeButtonSelected := isAudioMuted;
    }

    /** `volumeButtonTapped`: toggles the mute state. */
    method VolumeButtonTapped()
      requires Valid()
      modifies this`isAudioMuted, this`playerMuted, this`volumeButtonSelected
      ensures Valid()
      ensures isAudioMuted == !old(isAudioMuted)
    {
      SetAudioMuted(!isAudioMuted);
    }

    /** `didSelectColor`: a picked colour goes to the drawing, else to the active text view, else nowhere. */
    method DidSelectColor(color: Color)
      requires Valid()
      modifies this`drawColor, this`textColor, this`activeTextView
      ensures Valid()
      ensures isDrawing ==> drawColor == color && textColor == old(textColor) && activeTextView == old(activeTextView)
      ensures !isDrawing && old(activeTextView).Some? ==>
                drawColor == old(drawColor) && textColor == color && activeTextView == Some(color)
      ensures !isDrawing && old(activeTextView).None? ==>
                drawColor == old(drawColor) && textColor == old(textColor) && activeTextView.None?
    {
      if isDrawing {
        drawColor := color;
      } else if activeTextView.Some? {
        activeTextView := Some(color);
        textColor := color;
      }
    }

    /** `hideToolbar(hide:)`: both toolbars and both gradients take the same flag. */
    method HideToolbar(hideBars: bool)
      modifies this`hiddenPanels
      ensures hideBars ==> hiddenPanels == old(hiddenPanels) + Toolbars
      ensures !hideBars ==> hiddenPanels == old(hiddenPanels) - Toolbars
    {
      if hideBars {
        hiddenPanels := hiddenPanels + Toolbars;
      } else {
        hiddenPanels := hiddenPanels - Toolbars;
      }
    }

    /** `drawButtonTapped`: enter drawing mode with the colour picker shown. */
    method DrawButtonTapped()
      requires Valid()
      modifies this`isDrawing, this`canvasInteractionEnabled, this`hiddenPanels
      ensures Valid()
      ensures isDrawing && !canvasInteractionEnabled
      ensures hiddenPanels == old(hiddenPanels) - {DoneButton, ColorPicker} + Toolbars
    {
      isDrawing := true;
      canvasInteractionEnabled := false;
      hiddenPanels := hiddenPanels - {DoneButton, ColorPicker};
      HideToolbar(true);
    }

    /** `markerButtonTapped`: enter drawing mode with white ink. */
    method MarkerButtonTapped()
      requires Valid()
      modifies this`drawColor, this`isDrawing, this`canvasInteractionEnabled, this`hiddenPanels
      ensures Valid()
      ensures drawColor == White && isDrawing && !canvasInteractionEnabled
      ensures hiddenPanels == old(hiddenPanels) - {DoneButton} + Toolbars
    {
      drawColor := White;
      isDrawing := true;
      canvasInteractionEnabled := false;
      hiddenPanels := hiddenPanels - {DoneButton};
      HideToolbar(true);
    }

    /**
     * `doneButtonTapped`: leave drawing mode, restore the initial ink, hide
     * the done button, colour picker and trimmer, and show the toolbars.
     */
    method DoneButtonTapped()
      requires Valid()
      modifies this`hiddenPanels, this`canvasInteractionEnabled, this`isDrawing, this`drawColor
      ensures Valid()
      ensures !isDrawing && drawColor == drawColorInitial && canvasInteractionEnabled
      ensures hiddenPanels == old(hiddenPanels) - Toolbars + {DoneButton, ColorPicker, TrimmerContainer}
    {
      hiddenPanels := hiddenPanels + {DoneButton, ColorPicker};
      canvasInteractionEnabled := true;
      HideToolbar(false);
      isDrawing := false;
      drawColor := drawColorInitial;
      hiddenPanels := hiddenPanels + {TrimmerContainer};
    }

    /**
     * `trimButtonTapped`, for a video whose asset lasts `assetDuration`
     * seconds: show the trimmer, cap it just short of the asset's end and
     * refresh the duration text. Photo sessions ignore the tap.
     */
    method TrimButtonTapped(assetDuration: real)
      requires Valid()
      modifies this`hiddenPanels, this`trimMaxDuration, this`trimDurationText
      ensures Valid()
      ensures IsVideo() ==>
                && hiddenPanels == old(hiddenPanels) - {TrimmerContainer, DoneButton} + Toolbars
                && trimMaxDuration == Some(assetDuration - 0.05)
                && trimDurationText == TrimLabel.TrimmingDuration(trimStart, trimEnd)
      ensures !IsVideo() ==>
                hiddenPanels == old(hiddenPanels) && trimMaxDuration == old(trimMaxDuration)
                && trimDurationText == old(trimDurationText)
    {
      if IsVideo() {
        hiddenPanels := hiddenPanels - {TrimmerContainer, DoneButton};
        HideToolbar(true);
        trimMaxDuration := Some(assetDuration - 0.05);
        trimDurationText := TrimLabel.TrimmingDuration(trimStart, trimEnd);
      }
    }

    /** `cancelButtonTapped`: tell the delegate and dismiss. */
    method CancelButtonTapped()
      requires Valid()
      modifies this`events, this`dismissed
      ensures Valid()
      ensures events == old(events) + [CanceledEditing] && dismissed
    {
      events := events + [CanceledEditing];
      dismissed := true;
    }

    /**
     * `continueButtonPressed`. A photo session hands the delegate the canvas
     * snapshot `canvasImage` and dismisses. A video session hands it the
     * export's URL when there is one, and dismisses either way; `exported`
     * is what the export passed to its completion. No media: nothing.
     */
    method ContinueButtonPressed(canvasImage: Image, exported: Option<Url>)
      requires Valid()
      modifies this`events, this`dismissed, this`hiddenPanels
      ensures Valid()
      ensures media.None? ==>
                events == old(events) && dismissed == old(dismissed) && hiddenPanels == old(hiddenPanels)
      ensures media.Some? && media.value.Photo? ==>
                events == old(events) + [DoneEditing(canvasImage)] && dismissed
                && hiddenPanels == old(hiddenPanels)
      ensures IsVideo() ==>
                && events == old(events) + (if exported.Some? then [DoneEditingVideo(exported.value)] else [])
                && dismissed
                && hiddenPanels == old(hiddenPanels) + {ActivityIndicator}
    {
      match media
      case Some(Photo(_)) =>
        events := events + [DoneEditing(canvasImage)];
        dismissed := true;
      case Some(Video(_)) =>
        ShowLoader();
        HideLoader();
        if exported.Some? {
          events := events + [DoneEditingVideo(exported.value)];
        }
        dismissed := true;
      case None =>
    }

    method ShowLoader()
      modifies this`hiddenPanels
      ensures hiddenPanels == old(hiddenPanels) - {ActivityIndicator}
    {
      hiddenPanels := hiddenPanels - {ActivityIndicator};
    }

    method HideLoader()
      modifies this`hiddenPanels
      ensures hiddenPanels == old(hiddenPanels) + {ActivityIndicator}
    {
      hiddenPanels := hiddenPanels + {ActivityIndicator};
    }

    /** The trimmer view reports new handle times (its own dragging logic is not modelled). */
    method SetTrimBounds(start: Option<real>, end: Option<real>)
      modifies this`trimStart, this`trimEnd
      ensures trimStart == start && trimEnd == end
    {
      trimStart, trimEnd := start, end;
    }

    /** `stopPlaybackPeriodicObserver`: invalidate the timer, if any, and drop it. */
    method StopPlaybackPeriodicObserver()
      requires Valid()
      modifies this`hasPlaybackTimer, this`liveTimers
      ensures Valid()
      ensures !hasPlaybackTimer && liveTimers == 0
    {
      if hasPlaybackTimer {
        liveTimers := liveTimers - 1;
      }
      hasPlaybackTimer := false;
    }

    /** `startPlaybackPeriodicObserver`: stop any running timer first, then schedule a new one. */
    method StartPlaybackPeriodicObserver()
      requires Valid()
      modifies this`hasPlaybackTimer, this`liveTimers
      ensures Valid()
      ensures hasPlaybackTimer && liveTimers == 1
    {
      StopPlaybackPeriodicObserver();
      liveTimers := liveTimers + 1;
      hasPlaybackTimer := true;
    }

    /**
     * One tick of the playback timer, with the player's clock reading `now`:
     * nothing without both trim bounds; otherwise the trimmer follows the
     * player, and both jump back to the trim start once the end is reached.
     */
    method PlaybackTick(now: real)
      requires Valid()
      modifies this`trimmerPosition, this`playerSeekTime
      ensures Valid()
      ensures trimStart.None? || trimEnd.None? ==>
                trimmerPosition == old(trimmerPosition) && playerSeekTime == old(playerSeekTime)
      ensures trimStart.Some? && trimEnd.Some? && now >= trimEnd.value ==>
                trimmerPosition == trimStart.value && playerSeekTime == trimStart.value
      ensures trimStart.Some? && trimEnd.Some? && now < trimEnd.value ==>
                trimmerPosition == now && playerSeekTime == old(playerSeekTime)
    {
      if trimStart.Some? && trimEnd.Some? {
        var startTime, endTime := trimStart.value, trimEnd.value;
        trimmerPosition := now;
        if now >= endTime {
          playerSeekTime := startTime;
          trimmerPosition := startTime;
        }
      }
    }

    /** `didChangePositionBar`: while dragging, stop the timer, pause and seek the player. */
    method DidChangePositionBar(playerTime: real)
      requires Valid()
      modifies this`hasPlaybackTimer, this`liveTimers, this`playerPlaying, this`playerSeekTime, this`trimDurationText
      ensures Valid()
      ensures !hasPlaybackTimer && liveTimers == 0 && !playerPlaying && playerSeekTime == playerTime
      ensures trimDurationText == TrimLabel.TrimmingDuration(trimStart, trimEnd)
    {
      StopPlaybackPeriodicObserver();
      playerPlaying := false;
      playerSeekTime := playerTime;
      trimDurationText := TrimLabel.TrimmingDuration(trimStart, trimEnd);
    }

    /** `positionBarStoppedMoving`: seek, play and restart the timer. */
    method PositionBarStoppedMoving(playerTime: real)
      requires Valid()
      modifies this`hasPlaybackTimer, this`liveTimers, this`playerPlaying, this`playerSeekTime
      ensures Valid()
      ensures hasPlaybackTimer && liveTimers == 1 && playerPlaying && playerSeekTime == playerTime
    {
      playerSeekTime := playerTime;
      playerPlaying := true;
      StartPlaybackPeriodicObserver();
    }

    /** `viewDidAppear`: a video session starts the preview player. */
    method ViewDidAppear()
      requires Valid()
      modifies this`playerPlaying
      ensures Valid()
      ensures playerPlaying == (IsVideo() || old(playerPlaying))
    {
      if IsVideo() {
        playerPlaying := true;
      }
    }

    /** `viewDidDisappear`: a video session pauses the player and tears the timer down. */
    method ViewDidDisappear()
      requires Valid()
      modifies this`playerPlaying, this`hasPlaybackTimer, this`liveTimers
      ensures Valid()
      ensures IsVideo() ==> !playerPlaying && !hasPlaybackTimer && liveTimers == 0
      ensures !IsVideo() ==> playerPlaying == old(playerPlaying) && hasPlaybackTimer == old(hasPlaybackTimer)
    {
      if IsVideo() {
        playerPlaying := false;
        StopPlaybackPeriodicObserver();
      }
    }
  }

  /** Two taps on the volume button leave the mute state, and its mirrors, as they were. */
  method VolumeTwiceRestores(e: MediaEditor)
    requires e.Valid()
    modifies e
    ensures e.Valid() && e.isAudioMuted == old(e.isAudioMuted) && e.playerMuted == old(e.playerMuted)
  {
    e.VolumeButtonTapped();
    e.VolumeButtonTapped();
  }

  /** Running `hideControls` a second time changes no flag. */
  method HideControlsTwice(e: MediaEditor)
    modifies e
    ensures e.controls == HideAll(old(e.controls), e.hiddenControls + e.defaultHiddenControls, e.wrapped)
  {
    e.HideControls();
    ghost var once := e.controls;
    e.HideControls();
    HideAllIdempotent(old(e.controls), e.hiddenControls + e.defaultHiddenControls, e.wrapped);
    assert e.controls == once;
  }
}
