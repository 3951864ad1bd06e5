/** What the handlers of pages/index.js guarantee, one event at a time and over whole runs. */
module SessionProps {
  import opened Optional
  import opened Catalog
  import opened Sizing
  import opened Placement
  import opened Session

  // ----- Upload screen -----

  /**
    An upload writes only the slot it names ("portrait", or the landscape slot for any
    other name) and leaves everything else alone; no file, no change.
   */
  lemma UploadWritesOneSlot(s: State, slot: string, result: Option<DataUrl>)
    ensures result.None? ==> HandleImageUpload(s, slot, result) == s
    ensures result.Some? && slot == "portrait" ==>
      HandleImageUpload(s, slot, result).portraitImage == result &&
      HandleImageUpload(s, slot, result).landscapeImage == s.landscapeImage
    ensures result.Some? && slot != "portrait" ==>
      HandleImageUpload(s, slot, result).landscapeImage == result &&
      HandleImageUpload(s, slot, result).portraitImage == s.portraitImage
    ensures HandleImageUpload(s, slot, result).(portraitImage := s.portraitImage, landscapeImage := s.landscapeImage) == s
  {
  }

  /** From the upload screen, continuing reaches the preview exactly when both slots hold an image; otherwise nothing changes. */
  lemma ContinueGuard(s: State)
    requires s.step == Upload
    ensures ContinueToAR(s).step == Preview <==> CanContinue(s)
    ensures !CanContinue(s) ==> ContinueToAR(s) == s
    ensures ContinueToAR(s).(step := Upload) == s
  {
  }

  /** Uploading both images (in either order) from the initial state enables "Continue". */
  lemma BothUploadsEnableContinue(p: DataUrl, l: DataUrl)
    requires p != "" && l != ""
    ensures CanContinue(Run(Initial(), [FileLoaded("portrait", Some(p)), FileLoaded("landscape", Some(l))]))
    ensures CanContinue(Run(Initial(), [FileLoaded("landscape", Some(l)), FileLoaded("portrait", Some(p))]))
    ensures !CanContinue(Run(Initial(), [FileLoaded("portrait", Some(p))]))
    ensures !CanContinue(Run(Initial(), [FileLoaded("landscape", Some(l))]))
  {
    var s0 := Initial();
    var portrait, landscape := FileLoaded("portrait", Some(p)), FileLoaded("landscape", Some(l));
    var sp, sl := HandleImageUpload(s0, "portrait", Some(p)), HandleImageUpload(s0, "landscape", Some(l));
    RunCons(sp, landscape, []);
    RunCons(s0, portrait, [landscape]);
    assert [portrait] + [landscape] == [portrait, landscape];
    assert [landscape] + [] == [landscape];
    RunCons(sl, portrait, []);
    RunCons(s0, landscape, [portrait]);
    assert [landscape] + [portrait] == [landscape, portrait];
    assert [portrait] + [] == [portrait];
    RunCons(s0, portrait, []);
    RunCons(s0, landscape, []);
  }

  // ----- Camera lifecycle -----

  /**
    Starting the camera: without support nothing changes; with support the camera view is
    shown, not ready, with one request under way and, from a consistent preview, nothing placed.
   */
  lemma StartCameraEffect(s: State, supported: bool)
    ensures !supported ==> StartCamera(s, supported) == s
    ensures supported ==> StartCamera(s, supported).step == Camera && !StartCamera(s, supported).cameraReady
    ensures supported ==> StartCamera(s, supported).pendingAcquisitions == s.pendingAcquisitions + 1
    ensures Inv(s) && s.step == Preview ==> !StartCamera(s, supported).artworkPlaced
    ensures supported ==> StartCamera(s, supported).(step := s.step, cameraReady := s.cameraReady, pendingAcquisitions := s.pendingAcquisitions) == s
  {
  }

  /** A failed request always lands on the preview screen, whatever screen was showing, and touches no stream. */
  lemma FailureReturnsToPreview(s: State)
    ensures OnAcquisitionFailed(s).step == Preview
    ensures OnAcquisitionFailed(s).stream == s.stream && OnAcquisitionFailed(s).liveTracks == s.liveTracks
    ensures Inv(s) && s.pendingAcquisitions > 0 ==> !OnAcquisitionFailed(s).artworkPlaced && !OnAcquisitionFailed(s).cameraReady
    ensures OnAcquisitionFailed(s).(step := s.step, pendingAcquisitions := s.pendingAcquisitions) == s
    ensures s.pendingAcquisitions > 0 ==> OnAcquisitionFailed(s).pendingAcquisitions == s.pendingAcquisitions - 1
  {
  }

  /** The camera becomes ready only through the playback notification. */
  lemma ReadyOnlyAfterPlayback(s: State, ev: Event)
    requires Enabled(s, ev) && !s.cameraReady && Apply(s, ev).cameraReady
    ensures ev.PlaybackStarted?
  {
  }

  /**
    Exit releases the held stream and stops its tracks, hides the camera view and clears
    readiness and placement; a second exit changes nothing more.
   */
  lemma StopCameraIdempotent(s: State)
    ensures StopCamera(StopCamera(s)) == StopCamera(s)
    ensures StopCamera(s).liveTracks == s.liveTracks - HeldTracks(s)
  {
  }

  /** Only the held stream's tracks are ever stopped: a leaked track survives every event. */
  lemma LeakPersists(s: State, ev: Event)
    requires Enabled(s, ev)
    ensures LeakedTracks(s) <= LeakedTracks(Apply(s, ev))
  {
  }

  lemma {:induction false} LeakPersistsOverRun(s: State, evs: seq<Event>)
    requires Possible(s, evs)
    ensures LeakedTracks(s) <= LeakedTracks(Run(s, evs))
    decreases |evs|
  {
    if evs != [] {
      LeakPersists(s, evs[0]);
      LeakPersistsOverRun(Apply(s, evs[0]), evs[1..]);
    }
  }

  /**
    Exit pressed before the camera request settles: when the stream arrives the video element
    is gone, so the stream is neither stored nor stopped, and its tracks keep capturing for the
    rest of the session. This happens without any overlapping requests.
   */
  lemma ExitBeforeAcquisitionLeaks(s: State, stream: Stream, later: seq<Event>)
    requires Inv(s) && s.step == Preview && s.pendingAcquisitions == 0
    requires TrackSet(stream) !! s.liveTracks
    requires Possible(OnStreamAcquired(StopCamera(StartCamera(s, true)), stream), later)
    ensures Possible(s, [StartPressed(true), ExitPressed, StreamAcquired(stream)])
    ensures Serialized(s, [StartPressed(true), ExitPressed, StreamAcquired(stream)])
    ensures Run(s, [StartPressed(true), ExitPressed, StreamAcquired(stream)])
         == OnStreamAcquired(StopCamera(StartCamera(s, true)), stream)
    ensures TrackSet(stream) <= LeakedTracks(Run(OnStreamAcquired(StopCamera(StartCamera(s, true)), stream), later))
  {
    var evs := [StartPressed(true), ExitPressed, StreamAcquired(stream)];
    var s1 := StartCamera(s, true);
    var s2 := StopCamera(s1);
    var s3 := OnStreamAcquired(s2, stream);
    assert evs[1..] == [ExitPressed, StreamAcquired(stream)];
    assert evs[2..] == [StreamAcquired(stream)];
    assert evs[3..] == [];
    assert s2.liveTracks == s.liveTracks && s3.stream.None?;
    assert Run(s3, evs[3..]) == s3;
    assert Possible(s2, evs[2..]) && Run(s2, evs[2..]) == s3 && Serialized(s2, evs[2..]);
    assert Possible(s1, evs[1..]) && Run(s1, evs[1..]) == s3 && Serialized(s1, evs[1..]);
    LeakPersistsOverRun(s3, later);
  }

  // ----- Placement, size and zoom -----

  /**
    A tap changes nothing unless the camera view is shown and ready; otherwise it anchors the
    overlay at the tap point in percent of the container, replacing any earlier anchor, and
    changes nothing else.
   */
  lemma PlaceArtworkEffect(s: State, e: PointerEvent, rect: Rect, e2: PointerEvent, rect2: Rect)
    requires NonEmpty(rect) && NonEmpty(rect2)
    ensures s.step != Camera || !s.cameraReady ==> PlaceArtwork(s, e, rect) == s
    ensures s.step == Camera && s.cameraReady ==>
      PlaceArtwork(s, e, rect).artworkPlaced &&
      Denormalize(PlaceArtwork(s, e, rect).artworkPosition, rect) == TapPoint(e) &&
      PlaceArtwork(s, e, rect).(artworkPosition := s.artworkPosition, artworkPlaced := s.artworkPlaced) == s
    ensures PlaceArtwork(PlaceArtwork(s, e, rect), e2, rect2) == PlaceArtwork(s, e2, rect2)
  {
  }

  /** The worked example: with the camera ready, a tap at (300, 400) in a 1000 x 800 container anchors at (30 %, 50 %). */
  lemma PlacementExample(s: State)
    requires s.step == Camera && s.cameraReady
    ensures PlaceArtwork(s, PointerEvent(Click, [], [], Point(300.0, 400.0)), Rect(0.0, 0.0, 1000.0, 800.0)).artworkPosition == Point(30.0, 50.0)
  {
  }

  /**
    Selecting a size clears the placement, so the overlay (and the zoom and shop controls
    shown only while placed) disappear until the next tap; it changes nothing but the size and
    the placement flag, so anchor, zoom, images, step and camera state are kept. A later tap
    brings the overlay back wherever the image for the new size's orientation is present.
   */
  lemma SizeChangeHidesOverlay(s: State, size: Size, e: PointerEvent, rect: Rect)
    requires NonEmpty(rect)
    ensures !SelectSize(s, size).artworkPlaced
    ensures !OverlayVisible(SelectSize(s, size))
    ensures SelectSize(s, size).selectedSize == size
    ensures SelectSize(s, size).(selectedSize := s.selectedSize, artworkPlaced := s.artworkPlaced) == s
    ensures s.step == Camera && s.cameraReady ==>
      (OverlayVisible(PlaceArtwork(SelectSize(s, size), e, rect)) <==> Truthy(CurrentImage(SelectSize(s, size))))
  {
  }

  /** The two portrait sizes show the portrait image and the landscape size the landscape image. */
  lemma CurrentImageByOrientation(s: State)
    requires s.selectedSize in SIZES
    ensures s.selectedSize.id != "24x36" ==> CurrentImage(s) == s.portraitImage
    ensures s.selectedSize.id == "24x36" ==> CurrentImage(s) == s.landscapeImage
  {
  }

  /** The zoom buttons keep the scale in range and touch nothing else. */
  lemma ZoomKeepsRange(s: State)
    requires InZoomRange(s.artworkScale)
    ensures InZoomRange(PressZoomOut(s).artworkScale) && InZoomRange(PressZoomIn(s).artworkScale)
    ensures PressZoomOut(s).(artworkScale := s.artworkScale) == s
    ensures PressZoomIn(s).(artworkScale := s.artworkScale) == s
  {
  }

  // ----- Invariant over runs -----

  lemma InitialInv()
    ensures Inv(Initial())
  {
  }

  /** Every enabled event other than an overlapping camera start keeps the invariant. */
  lemma ApplyPreservesInv(s: State, ev: Event)
    requires Inv(s) && Enabled(s, ev) && !Overlapping(s, ev)
    ensures Inv(Apply(s, ev))
  {
  }

  lemma {:induction false} SerializedRunsKeepInv(s: State, evs: seq<Event>)
    requires Inv(s) && Possible(s, evs) && Serialized(s, evs)
    ensures Inv(Run(s, evs))
    decreases |evs|
  {
    if evs != [] {
      ApplyPreservesInv(s, evs[0]);
      SerializedRunsKeepInv(Apply(s, evs[0]), evs[1..]);
    }
  }

  /**
    In every session in which no camera request is started while another is under way: the
    artwork is placed only on the ready camera view, so the overlay is drawn only once the
    camera is ready; and a stream is held only on the camera view.
   */
  lemma PlacedOnlyOnCamera(evs: seq<Event>)
    requires Possible(Initial(), evs) && Serialized(Initial(), evs)
    ensures Run(Initial(), evs).artworkPlaced ==> Run(Initial(), evs).step == Camera && Run(Initial(), evs).cameraReady
    ensures OverlayVisible(Run(Initial(), evs)) ==> Run(Initial(), evs).cameraReady
    ensures Run(Initial(), evs).stream.Some? ==> Run(Initial(), evs).step == Camera
  {
    InitialInv();
    SerializedRunsKeepInv(Initial(), evs);
  }

  /** Every enabled event keeps a catalog size and an in-range zoom, overlapping requests or not. */
  lemma ApplyKeepsSizeAndZoom(s: State, ev: Event)
    requires Enabled(s, ev) && s.selectedSize in SIZES && InZoomRange(s.artworkScale)
    ensures Apply(s, ev).selectedSize in SIZES && InZoomRange(Apply(s, ev).artworkScale)
  {
  }

  lemma {:induction false} RunsKeepSizeAndZoom(s: State, evs: seq<Event>)
    requires Possible(s, evs) && s.selectedSize in SIZES && InZoomRange(s.artworkScale)
    ensures Run(s, evs).selectedSize in SIZES && InZoomRange(Run(s, evs).artworkScale)
    decreases |evs|
  {
    if evs != [] {
      ApplyKeepsSizeAndZoom(s, evs[0]);
      RunsKeepSizeAndZoom(Apply(s, evs[0]), evs[1..]);
    }
  }

  /** In every session, whatever the order in which camera requests settle, the zoom stays within [0.5, 2] and the size is a catalog entry. */
  lemma ZoomAlwaysInRange(evs: seq<Event>)
    requires Possible(Initial(), evs)
    ensures InZoomRange(Run(Initial(), evs).artworkScale)
    ensures Run(Initial(), evs).selectedSize in SIZES
  {
    InitialInv();
    RunsKeepSizeAndZoom(Initial(), evs);
  }

  /** In every session the overlay's pixel size (`dimensions`) is positive and has the selected size's aspect ratio. */
  lemma CurrentDimensionsShape(evs: seq<Event>)
    requires Possible(Initial(), evs)
    ensures CurrentDimensions(Run(Initial(), evs)).width > 0.0
    ensures CurrentDimensions(Run(Initial(), evs)).height > 0.0
    ensures CurrentDimensions(Run(Initial(), evs)).width / CurrentDimensions(Run(Initial(), evs)).height
         == Run(Initial(), evs).selectedSize.width / Run(Initial(), evs).selectedSize.height
  {
    var s := Run(Initial(), evs);
    ZoomAlwaysInRange(evs);
    DimensionsPreserveAspect(s.selectedSize, s.artworkScale, s.artworkScale);
  }

  /**
    Without the serialization the guarantee fails: start, exit before the request settles,
    start again; the first request succeeds on the new camera view, playback starts, the user
    taps, and then the second request fails. The preview screen is shown with the artwork
    still placed, the camera marked ready and the first stream still held.
   */
  lemma OverlappingRequestsLeavePlacement(s: State, stream: Stream, e: PointerEvent, rect: Rect)
    requires Inv(s) && s.step == Preview && s.pendingAcquisitions == 0
    requires TrackSet(stream) !! s.liveTracks && NonEmpty(rect)
    ensures Possible(s, [StartPressed(true), ExitPressed, StartPressed(true), StreamAcquired(stream),
                         PlaybackStarted, Tap(e, rect), AcquisitionFailed])
    ensures !Serialized(s, [StartPressed(true), ExitPressed, StartPressed(true), StreamAcquired(stream),
                            PlaybackStarted, Tap(e, rect), AcquisitionFailed])
    ensures Run(s, [StartPressed(true), ExitPressed, StartPressed(true), StreamAcquired(stream),
                    PlaybackStarted, Tap(e, rect), AcquisitionFailed]).step == Preview
    ensures Run(s, [StartPressed(true), ExitPressed, StartPressed(true), StreamAcquired(stream),
                    PlaybackStarted, Tap(e, rect), AcquisitionFailed]).artworkPlaced
    ensures Run(s, [StartPressed(true), ExitPressed, StartPressed(true), StreamAcquired(stream),
                    PlaybackStarted, Tap(e, rect), AcquisitionFailed]).stream == Some(stream)
  {
    var s1 := StartCamera(s, true);
    var s2 := StopCamera(s1);
    var s3 := StartCamera(s2, true);
    var s4 := OnStreamAcquired(s3, stream);
    var s5 := OnPlaybackStarted(s4);
    var s6 := PlaceArtwork(s5, e, rect);
    var s7 := OnAcquisitionFailed(s6);
    assert s7.step == Preview && s7.artworkPlaced && s7.stream == Some(stream);
    RunCons(s6, AcquisitionFailed, []);
    RunCons(s5, Tap(e, rect), [AcquisitionFailed]);
    RunCons(s4, PlaybackStarted, [Tap(e, rect), AcquisitionFailed]);
    RunCons(s3, StreamAcquired(stream), [PlaybackStarted, Tap(e, rect), AcquisitionFailed]);
    RunCons(s2, StartPressed(true), [StreamAcquired(stream), PlaybackStarted, Tap(e, rect), AcquisitionFailed]);
    RunCons(s1, ExitPressed, [StartPressed(true), StreamAcquired(stream), PlaybackStarted, Tap(e, rect), AcquisitionFailed]);
    RunCons(s, StartPressed(true), [ExitPressed, StartPressed(true), StreamAcquired(stream), PlaybackStarted, Tap(e, rect), AcquisitionFailed]);
  }

  /**
    A consequence of the overlapping run: pressing start again shows the camera view with the
    artwork already placed while the camera is not ready, because starting resets readiness
    but not the placement; the overlay is drawn whenever the current image is present.
   */
  lemma OverlayBeforeReady(s: State, stream: Stream, e: PointerEvent, rect: Rect)
    requires Inv(s) && s.step == Preview && s.pendingAcquisitions == 0
    requires TrackSet(stream) !! s.liveTracks && NonEmpty(rect)
    ensures Possible(s, [StartPressed(true), ExitPressed, StartPressed(true), StreamAcquired(stream),
                         PlaybackStarted, Tap(e, rect), AcquisitionFailed, StartPressed(true)])
    ensures Run(s, [StartPressed(true), ExitPressed, StartPressed(true), StreamAcquired(stream),
                    PlaybackStarted, Tap(e, rect), AcquisitionFailed, StartPressed(true)]).step == Camera
    ensures Run(s, [StartPressed(true), ExitPressed, StartPressed(true), StreamAcquired(stream),
                    PlaybackStarted, Tap(e, rect), AcquisitionFailed, StartPressed(true)]).artworkPlaced
    ensures !Run(s, [StartPressed(true), ExitPressed, StartPressed(true), StreamAcquired(stream),
                     PlaybackStarted, Tap(e, rect), AcquisitionFailed, StartPressed(true)]).cameraReady
    ensures OverlayVisible(Run(s, [StartPressed(true), ExitPressed, StartPressed(true), StreamAcquired(stream),
                                   PlaybackStarted, Tap(e, rect), AcquisitionFailed, StartPressed(true)]))
        <==> Truthy(CurrentImage(s))
  {
    var s1 := StartCamera(s, true);
    var s2 := StopCamera(s1);
    var s3 := StartCamera(s2, true);
    var s4 := OnStreamAcquired(s3, stream);
    var s5 := OnPlaybackStarted(s4);
    var s6 := PlaceArtwork(s5, e, rect);
    var s7 := OnAcquisitionFailed(s6);
    var s8 := StartCamera(s7, true);
    assert s8.step == Camera && s8.artworkPlaced && !s8.cameraReady && CurrentImage(s8) == CurrentImage(s);
    RunCons(s7, StartPressed(true), []);
    RunCons(s6, AcquisitionFailed, [StartPressed(true)]);
    RunCons(s5, Tap(e, rect), [AcquisitionFailed, StartPressed(true)]);
    RunCons(s4, PlaybackStarted, [Tap(e, rect), AcquisitionFailed, StartPressed(true)]);
    RunCons(s3, StreamAcquired(stream), [PlaybackStarted, Tap(e, rect), AcquisitionFailed, StartPressed(true)]);
    RunCons(s2, StartPressed(true), [StreamAcquired(stream), PlaybackStarted, Tap(e, rect), AcquisitionFailed, StartPressed(true)]);
    RunCons(s1, ExitPressed, [StartPressed(true), StreamAcquired(stream), PlaybackStarted, Tap(e, rect), AcquisitionFailed, StartPressed(true)]);
    RunCons(s, StartPressed(true), [ExitPressed, StartPressed(true), StreamAcquired(stream), PlaybackStarted, Tap(e, rect), AcquisitionFailed, StartPressed(true)]);
  }

  /** One enabled event in front of a possible run. */
  lemma RunCons(s: State, ev: Event, evs: seq<Event>)
    requires Enabled(s, ev) && Possible(Apply(s, ev), evs)
    ensures Possible(s, [ev] + evs)
    ensures Run(s, [ev] + evs) == Run(Apply(s, ev), evs)
    ensures Serialized(s, [ev] + evs) <==> !Overlapping(s, ev) && Serialized(Apply(s, ev), evs)
  {
  }
}
